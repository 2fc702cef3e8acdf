/** Runs of the engine that the library's own test suite walks through
    (tests/whenipress.test.js), stated as methods over fresh objects and
    as lemmas over the pure transition functions. A key event built from
    a key name alone has the empty string as its code. */
module Scenarios {
  import opened Seqs
  import opened KeyMatching
  import opened Plugins
  import opened Binding
  import opened Grouping
  import opened Engine
  import opened Entry

  /** A key pressed by name, as the tests' `dispatchKeyDown(key)` builds it. */
  function Named(key: string): KeyEvent {
    KeyEvent(key, "")
  }

  /** A key-down of `k` on a binding watching just `k`, with no plugins,
      nothing held and no double-press flag: the handler fires. */
  lemma SingleKeyDown(k: string, p: Progress)
    requires k != "" && p.pressed == []
    ensures OnKeyDown([k], false, [], p, Named(k), false)
            == DownResult(p.(pressed := [k], pressCount := 0, downCount := p.downCount + 1), Fired)
  {
    assert SameValues([] + [k], [k]);
    assert LoopOverPlugins([], BeforeHandled, [Keys([k])]) == [];
  }

  /** The key-up of `k` with just `k` held: nothing is held afterwards, and
      an unacknowledged match is acknowledged. */
  lemma SingleKeyUp(k: string, p: Progress)
    requires k != "" && p.pressed == [k]
    ensures OnKeyUp(p, Named(k))
            == if p.downCount > p.upCount then UpResult(p.(pressed := [], upCount := p.downCount), true)
               else UpResult(p.(pressed := []), false)
  {
    RemoveAllSingleton(k, {k, ""});
  }

  /** `press(k)` on one attached binding watching exactly `[k]` with no
      plugins and no modifier flags: one match, acknowledged on release. */
  method PressSingle(b: PendingKeyboardEvent, k: string)
    requires b.Valid() && b.manager.Valid() && b.listening
    requires b.keysToWatch == [k] && b.keysCurrentlyBeingPressed == [] && k != ""
    requires !b.onlyFireOnDoublePress && !b.stopAfterNextRun && b.pluginsManager.plugins == []
    modifies b`keysCurrentlyBeingPressed, b`pressCount, b`pendingResets, b`totalKeyDownCount,
             b`totalKeyUpCount, b`matched, b`released, b`listening,
             b.manager`registeredEvents, b.pluginsManager`log
    ensures b.Valid() && b.manager.Valid() && b.listening && b.keysCurrentlyBeingPressed == []
    ensures b.matched == old(b.matched) + [[k]]
    ensures b.manager.registeredEvents == old(b.manager.registeredEvents)
  {
    SingleKeyDown(k, b.State());
    b.KeyDown(Named(k), false);
    SingleKeyUp(k, b.State());
    b.KeyUp(Named(k));
  }

  /** `press(k)` twice on such a binding: two matches. */
  method PressSingleTwice(b: PendingKeyboardEvent, k: string)
    requires b.Valid() && b.manager.Valid() && b.listening
    requires b.keysToWatch == [k] && b.keysCurrentlyBeingPressed == [] && k != ""
    requires !b.onlyFireOnDoublePress && !b.stopAfterNextRun && b.pluginsManager.plugins == []
    modifies b`keysCurrentlyBeingPressed, b`pressCount, b`pendingResets, b`totalKeyDownCount,
             b`totalKeyUpCount, b`matched, b`released, b`listening,
             b.manager`registeredEvents, b.pluginsManager`log
    ensures b.Valid() && b.manager.Valid() && b.listening && b.keysCurrentlyBeingPressed == []
    ensures b.matched == old(b.matched) + [[k], [k]]
    ensures b.manager.registeredEvents == old(b.manager.registeredEvents)
  {
    PressSingle(b, k);
    PressSingle(b, k);
  }

  /** A key pressed and lifted on a binding whose listeners are detached:
      nothing happens. */
  method PressDetached(b: PendingKeyboardEvent, k: string)
    requires b.Valid() && b.manager.Valid() && !b.listening
    modifies b`keysCurrentlyBeingPressed, b`pressCount, b`pendingResets, b`totalKeyDownCount,
             b`totalKeyUpCount, b`matched, b`released, b`listening,
             b.manager`registeredEvents, b.pluginsManager`log
    ensures b.Valid() && b.manager.Valid() && !b.listening
    ensures b.matched == old(b.matched) && b.released == old(b.released)
    ensures b.manager.registeredEvents == old(b.manager.registeredEvents)
  {
    b.KeyDown(Named(k), false);
    b.KeyUp(Named(k));
  }

  /** `press(k)` on a `once` binding that is the only one registered: it
      fires, stops and leaves the registry. */
  method PressOnceBinding(b: PendingKeyboardEvent, k: string)
    requires b.Valid() && b.manager.Valid() && b.listening && b.manager.registeredEvents == [b]
    requires b.keysToWatch == [k] && b.keysCurrentlyBeingPressed == [] && k != ""
    requires !b.onlyFireOnDoublePress && b.stopAfterNextRun && b.pluginsManager.plugins == []
    modifies b`keysCurrentlyBeingPressed, b`pressCount, b`pendingResets, b`totalKeyDownCount,
             b`totalKeyUpCount, b`matched, b`released, b`listening,
             b.manager`registeredEvents, b.pluginsManager`log
    ensures b.Valid() && b.manager.Valid() && !b.listening
    ensures b.matched == old(b.matched) + [[k]] && b.manager.registeredEvents == []
  {
    SingleKeyDown(k, b.State());
    RemoveAllSingleton(b, {b});
    b.KeyDown(Named(k), false);
    b.KeyUp(Named(k));
  }

  /** A new attached binding on one key, from the entry point. */
  method Attached(w: Whenipress, k: string) returns (b: PendingKeyboardEvent)
    requires w.manager.Valid() && w.manager.modifiers == [] && w.manager.pluginsManager.plugins == []
    modifies w.manager`registeredEvents, w.manager.pluginsManager`log
    ensures w.manager.Valid() && fresh(b)
    ensures b.manager == w.manager && b.pluginsManager == w.manager.pluginsManager
    ensures b.Valid() && b.listening && b.keysToWatch == [k] && b.keysCurrentlyBeingPressed == []
    ensures !b.onlyFireOnDoublePress && !b.stopAfterNextRun && b.matched == []
    ensures w.manager.registeredEvents == old(w.manager.registeredEvents) + [b]
  {
    var r := w.Call([k]);
    b := r.binding;
    b := b.Then();
  }

  /** "can cleanup event listeners" (on any two key names): two bindings,
      `p` pressed twice, the `p` binding stopped, `p` pressed again; its
      handler ran twice and one binding is left. */
  method CleanupScenario(p: string, o: string) returns (fired: nat, live: nat, before: nat)
    requires p != "" && o != "" && p != o
    ensures before == 2 && fired == 2 && live == 1
  {
    var w := new Whenipress();
    var wip := Attached(w, p);
    var other := Attached(w, o);
    before := |w.manager.Bindings()|;
    PressSingleTwice(wip, p);
    wip.Stop();
    wip.KeyDown(Named(p), false);
    wip.KeyUp(Named(p));
    fired := |wip.matched|;
    live := |w.manager.Bindings()|;
  }

  /** "can listen for an event only once": `whenipress(z).then(...).once()`
      and four presses of `z`, for any key name `z`: the handler runs once, and the binding has
      left the registry. */
  method OnceScenario(z: string) returns (fired: nat, live: nat)
    requires z != ""
    ensures fired == 1 && live == 0
  {
    var w := new Whenipress();
    var b := Attached(w, z);
    b := b.Once();
    PressOnceBinding(b, z);
    PressDetached(b, z);
    PressDetached(b, z);
    PressDetached(b, z);
    fired := |b.matched|;
    live := |w.manager.Bindings()|;
  }

  /** "can stop all event listeners", with one-key bindings (on any two
      key names): two bindings pressed twice each, `stopAll`, the same presses again; the handlers
      ran four times in all and no binding is left. */
  method StopAllScenario(a: string, c: string) returns (fired: nat, live: nat)
    requires a != "" && c != "" && a != c
    ensures fired == 4 && live == 0
  {
    var w := new Whenipress();
    var b1 := Attached(w, a);
    var b2 := Attached(w, c);
    PressSingleTwice(b1, a);
    PressSingleTwice(b2, c);
    ghost var v1, v2 := b1.View(), b2.View();
    assert b1 in w.manager.registeredEvents && b2 in w.manager.registeredEvents;
    w.manager.StopAll();
    assert b1.View() == v1 && b2.View() == v2;
    PressDetached(b1, a);
    PressDetached(b2, c);
    fired := |b1.matched| + |b2.matched|;
    live := |w.manager.Bindings()|;
  }

  /** "can retrieve all registered bindings". */
  method BindingsScenario() returns (bindings: seq<seq<string>>)
    ensures bindings == [["n", "e", "s"], ["l", "i", "h"]]
  {
    var w := new Whenipress();
    var r1 := w.Call(["n", "e", "s"]);
    assert [] + ["n", "e", "s"] == ["n", "e", "s"];
    var r2 := w.Call(["l", "i", "h"]);
    assert [] + ["l", "i", "h"] == ["l", "i", "h"];
    bindings := w.manager.Bindings();
  }

  /** The registrations of `group(['a', 'z'], ...)` in that test. */
  lemma GroupedRegistrations(a: string, z: string, b: string, c: string)
    ensures Perform([a, z], [Reg([b]), Reg([c])]).registered == [[a, z, b], [a, z, c]]
  {
    FlatHandlerPrefixes([a, z], [Reg([b]), Reg([c])]);
    assert [a, z] + [b] == [a, z, b] && [a, z] + [c] == [a, z, c];
  }

  /** "it can have a grouped key modifier" (on any key names): registrations
      of `b` and `c` inside `group([a, z], ...)` watch `a`,`z`,`b` and
      `a`,`z`,`c`; afterwards there are no modifiers. */
  method GroupScenario(a: string, z: string, b: string, c: string)
    returns (bindings: seq<seq<string>>, modifiers: seq<string>)
    ensures bindings == [[a, z, b], [a, z, c]] && modifiers == []
  {
    var w := new Whenipress();
    GroupedRegistrations(a, z, b, c);
    assert ModifiersOf(Many([a, z])) == [a, z];
    var created := w.manager.Group(Many([a, z]), [Reg([b]), Reg([c])]);
    assert w.manager.registeredEvents == created by { assert [] + created == created; }
    bindings := w.manager.Bindings();
    assert bindings == KeysOf(created);
    modifiers := w.manager.modifiers;
  }

  /** Four different key names. */
  predicate FourKeys(a: string, z: string, b: string, c: string) {
    a != z && a != b && a != c && z != b && z != c && b != c
  }

  /** The key sets held during that test's presses, against both grouped
      bindings: `b`, `c`, `a`, `a`+`b` and `a`+`c` match neither;
      `a`,`c`,`z` matches only the one on `a`,`z`,`c`, and `a`,`b`,`z`
      only the one on `a`,`z`,`b`. `GroupedHandlersFireTwice` turns this
      into handler calls. */
  lemma GroupedKeysMatch(a: string, z: string, b: string, c: string)
    requires FourKeys(a, z, b, c)
    ensures !SameValues([b], [a, z, b]) && !SameValues([b], [a, z, c])
    ensures !SameValues([c], [a, z, b]) && !SameValues([c], [a, z, c])
    ensures !SameValues([a], [a, z, b]) && !SameValues([a], [a, z, c])
    ensures !SameValues([a, b], [a, z, b]) && !SameValues([a, b], [a, z, c])
    ensures !SameValues([a, c], [a, z, b]) && !SameValues([a, c], [a, z, c])
    ensures SameValues([a, c, z], [a, z, c]) && !SameValues([a, c, z], [a, z, b])
    ensures SameValues([a, b, z], [a, z, b]) && !SameValues([a, b, z], [a, z, c])
  {
    PermutationMatches([a, b, z], [a, z, b]);
    StrayKeyPreventsMatch([a, b, z], [a, z, c], 1);
    PermutationMatches([a, c, z], [a, z, c]);
    StrayKeyPreventsMatch([a, c, z], [a, z, b], 1);
  }

  /** "a single string group modifier may be passed": `group('Shift', ...)`. */
  lemma SingleStringGroup(shift: string, b: string, c: string)
    ensures Perform(ModifiersOf(Single(shift)), [Reg([b]), Reg([c])]).registered == [[shift, b], [shift, c]]
  {
    FlatHandlerPrefixes([shift], [Reg([b]), Reg([c])]);
    assert [shift] + [b] == [shift, b] && [shift] + [c] == [shift, c];
  }

  // ---------------------------------------------------------------------
  // Runs of the pure transition functions from a new binding.

  /** A key-down of a named key, with nothing focused. */
  function Pressed(key: string): Input {
    Down(Named(key), false)
  }

  /** A key-up of a named key. */
  function Lifted(key: string): Input {
    Up(Named(key))
  }

  /** Key-ups alone never call the match handler and leave the key-down
      total where it was. */
  lemma {:induction false} KeyUpsNeverMatch(c: Config, p: Progress, inputs: seq<Input>)
    requires forall i :: 0 <= i < |inputs| ==> inputs[i].Up?
    ensures Run(c, p, inputs).matches == 0
    ensures Run(c, p, inputs).final.downCount == p.downCount
    decreases |inputs|
  {
    if inputs != [] {
      var rest := inputs[1..];
      assert forall i :: 0 <= i < |rest| ==> rest[i] == inputs[i + 1];
      KeyUpsNeverMatch(c, OnKeyUp(p, inputs[0].ev).progress, rest);
    }
  }

  /** Three different key names, none of them the empty code of a named
      key event. */
  predicate ThreeKeys(x: string, y: string, z: string) {
    x != y && y != z && x != z && x != "" && y != "" && z != ""
  }

  /** Each key-down of `press('z','c','a')` on a binding watching "z","a"
      (any three different names) records its key and does not match. */
  lemma ExactKeysSteps(z: string, c: string, a: string)
    requires ThreeKeys(z, c, a)
    ensures OnKeyDown([z, a], false, [], Fresh, Named(z), false) == DownResult(Progress([z], 0, 0, 0, 0), Unmatched)
    ensures OnKeyDown([z, a], false, [], Progress([z], 0, 0, 0, 0), Named(c), false)
            == DownResult(Progress([z, c], 0, 0, 0, 0), Unmatched)
    ensures OnKeyDown([z, a], false, [], Progress([z, c], 0, 0, 0, 0), Named(a), false)
            == DownResult(Progress([z, c, a], 0, 0, 0, 0), Unmatched)
  {
    assert [] + [z] == [z] && [z] + [c] == [z, c] && [z, c] + [a] == [z, c, a];
    StrayKeyPreventsMatch([z, c], [z, a], 1);
    StrayKeyPreventsMatch([z, c, a], [z, a], 1);
  }

  /** Hence none of those key-downs calls the handler. */
  lemma ExactKeysDowns(z: string, c: string, a: string)
    requires ThreeKeys(z, c, a)
    ensures Run(Config([z, a], false, []), Fresh, [Pressed(z), Pressed(c), Pressed(a)]).matches == 0
  {
    var cf := Config([z, a], false, []);
    ExactKeysSteps(z, c, a);
    RunOne(cf, Fresh, Pressed(z));
    RunOne(cf, Progress([z], 0, 0, 0, 0), Pressed(c));
    RunOne(cf, Progress([z, c], 0, 0, 0, 0), Pressed(a));
    RunAppend(cf, Progress([z], 0, 0, 0, 0), [Pressed(c)], [Pressed(a)]);
    RunAppend(cf, Fresh, [Pressed(z)], [Pressed(c), Pressed(a)]);
    assert [Pressed(c)] + [Pressed(a)] == [Pressed(c), Pressed(a)];
    assert [Pressed(z)] + [Pressed(c), Pressed(a)] == [Pressed(z), Pressed(c), Pressed(a)];
  }

  /** "only fires if the exact keys are being pressed": `press('z','c','a')`
      on a binding watching "z","a" calls neither handler. */
  lemma ExactKeysOnly(z: string, c: string, a: string)
    requires ThreeKeys(z, c, a)
    ensures var t := Run(Config([z, a], false, []), Fresh,
                         [Pressed(z), Pressed(c), Pressed(a), Lifted(z), Lifted(c), Lifted(a)]);
            t.matches == 0 && t.releases == 0
  {
    var cf := Config([z, a], false, []);
    var downs, ups := [Pressed(z), Pressed(c), Pressed(a)], [Lifted(z), Lifted(c), Lifted(a)];
    assert downs + ups == [Pressed(z), Pressed(c), Pressed(a), Lifted(z), Lifted(c), Lifted(a)];
    ExactKeysDowns(z, c, a);
    KeyUpsNeverMatch(cf, Run(cf, Fresh, downs).final, ups);
    RunAppend(cf, Fresh, downs, ups);
    ReleasesNeverExceedMatches(cf, downs + ups);
  }

  /** The key-downs of `a`, `b`, `c` on a binding watching them, one by
      one: only the third matches, and it fires. */
  lemma ReleaseSteps(a: string, b: string, c: string)
    requires ThreeKeys(a, b, c)
    ensures OnKeyDown([a, b, c], false, [], Fresh, Named(a), false)
            == DownResult(Progress([a], 0, 0, 0, 0), Unmatched)
    ensures OnKeyDown([a, b, c], false, [], Progress([a], 0, 0, 0, 0), Named(b), false)
            == DownResult(Progress([a, b], 0, 0, 0, 0), Unmatched)
    ensures OnKeyDown([a, b, c], false, [], Progress([a, b], 0, 0, 0, 0), Named(c), false)
            == DownResult(Progress([a, b, c], 0, 0, 1, 0), Fired)
  {
    assert [] + [a] == [a] && [a] + [b] == [a, b] && [a, b] + [c] == [a, b, c];
    assert LoopOverPlugins([], BeforeHandled, [Keys([a, b, c])]) == [];
  }

  /** Hence those three key-downs make one match. */
  lemma ReleaseDowns(a: string, b: string, c: string)
    requires ThreeKeys(a, b, c)
    ensures Run(Config([a, b, c], false, []), Fresh, [Pressed(a), Pressed(b), Pressed(c)])
            == Trace(Progress([a, b, c], 0, 0, 1, 0), 1, 0)
  {
    var cf := Config([a, b, c], false, []);
    ReleaseSteps(a, b, c);
    RunOne(cf, Fresh, Pressed(a));
    RunOne(cf, Progress([a], 0, 0, 0, 0), Pressed(b));
    RunOne(cf, Progress([a, b], 0, 0, 0, 0), Pressed(c));
    RunAppend(cf, Progress([a], 0, 0, 0, 0), [Pressed(b)], [Pressed(c)]);
    RunAppend(cf, Fresh, [Pressed(a)], [Pressed(b), Pressed(c)]);
    assert [Pressed(b)] + [Pressed(c)] == [Pressed(b), Pressed(c)];
    assert [Pressed(a)] + [Pressed(b), Pressed(c)] == [Pressed(a), Pressed(b), Pressed(c)];
  }

  /** Lifting `a` after that match leaves `b`, `c` held: no release. */
  lemma ReleaseFirstUp(a: string, b: string, c: string)
    requires ThreeKeys(a, b, c)
    ensures Run(Config([a, b, c], false, []), Progress([a, b, c], 0, 0, 1, 0), [Lifted(a)])
            == Trace(Progress([b, c], 0, 0, 1, 0), 0, 0)
  {
    assert RemoveAll([a, b, c], {a, ""}) == [b, c] by {
      assert [a, b, c] == [a] + [b, c];
      RemoveAllAppend([a], [b, c], {a, ""});
      RemoveAllSingleton(a, {a, ""});
      RemoveAllNone([b, c], {a, ""});
    }
    RunOne(Config([a, b, c], false, []), Progress([a, b, c], 0, 0, 1, 0), Lifted(a));
  }

  /** Lifting `b` and then `c`: the key-up that empties the pressed keys
      acknowledges the release. */
  lemma ReleaseLastUps(a: string, b: string, c: string)
    requires ThreeKeys(a, b, c)
    ensures Run(Config([a, b, c], false, []), Progress([b, c], 0, 0, 1, 0), [Lifted(b), Lifted(c)])
            == Trace(Progress([], 0, 0, 1, 1), 0, 1)
  {
    var cf := Config([a, b, c], false, []);
    var p2, p3 := Progress([b, c], 0, 0, 1, 0), Progress([c], 0, 0, 1, 0);
    assert RemoveAll([b, c], {b, ""}) == [c] by {
      assert [b, c] == [b] + [c];
      RemoveAllAppend([b], [c], {b, ""});
      RemoveAllSingleton(b, {b, ""});
      RemoveAllSingleton(c, {b, ""});
    }
    RemoveAllSingleton(c, {c, ""});
    RunOne(cf, p2, Lifted(b));
    RunOne(cf, p3, Lifted(c));
    RunAppend(cf, p2, [Lifted(b)], [Lifted(c)]);
    assert [Lifted(b)] + [Lifted(c)] == [Lifted(b), Lifted(c)];
  }

  /** "it can listen for keys release": with `a`, `b`, `c` held the match
      handler has run; lifting `a` does not report a release; lifting `b`
      and `c` reports exactly one. */
  lemma ReleaseAfterAllKeysUp(a: string, b: string, c: string)
    requires ThreeKeys(a, b, c)
    ensures var t := Run(Config([a, b, c], false, []), Fresh, [Pressed(a), Pressed(b), Pressed(c), Lifted(a)]);
            t.matches == 1 && t.releases == 0
    ensures var t := Run(Config([a, b, c], false, []), Fresh,
                         [Pressed(a), Pressed(b), Pressed(c), Lifted(a), Lifted(b), Lifted(c)]);
            t.matches == 1 && t.releases == 1
  {
    var cf := Config([a, b, c], false, []);
    var downs, up1, ups := [Pressed(a), Pressed(b), Pressed(c)], [Lifted(a)], [Lifted(b), Lifted(c)];
    ReleaseDowns(a, b, c);
    ReleaseFirstUp(a, b, c);
    ReleaseLastUps(a, b, c);
    RunAppend(cf, Fresh, downs, up1);
    RunAppend(cf, Fresh, downs + up1, ups);
    assert downs + up1 == [Pressed(a), Pressed(b), Pressed(c), Lifted(a)];
    assert (downs + up1) + ups == [Pressed(a), Pressed(b), Pressed(c), Lifted(a), Lifted(b), Lifted(c)];
  }

  /** "multiple plugins may be registered": the same plugin added twice is
      called twice for one registration. */
  lemma DuplicatePluginCalledTwice(p: Plugin, keys: seq<string>)
    requires BindingRegistered in p.hooks
    ensures var call := Invocation(p.id, BindingRegistered, [Keys(keys), ManagerRef, PluginRef(p.id)]);
            Invocations([p, p], BindingRegistered, [Keys(keys)]) == [call, call]
  {
    DispatchAppend([p], [p], BindingRegistered, [Keys(keys)]);
    DispatchOne(p, BindingRegistered, [Keys(keys)]);
    assert [p] + [p] == [p, p];
    assert CallArgs([Keys(keys)], p) == [Keys(keys), ManagerRef, PluginRef(p.id)];
  }

  // ---------------------------------------------------------------------
  // The tests' `press(...keys)`: every key down in order, then every key
  // up in order, on a binding without plugins or the double-press flag.

  /** The key-downs of `press(...keys)`. */
  function Downs(keys: seq<string>): seq<Input>
    decreases |keys|
  {
    if keys == [] then [] else [Pressed(keys[0])] + Downs(keys[1..])
  }

  /** The key-ups of `press(...keys)`. */
  function Ups(keys: seq<string>): seq<Input>
    decreases |keys|
  {
    if keys == [] then [] else [Lifted(keys[0])] + Ups(keys[1..])
  }

  /** `press(...keys)`. */
  function Press(keys: seq<string>): seq<Input> {
    Downs(keys) + Ups(keys)
  }

  /** Several `press` calls in a row. */
  function Presses(ps: seq<seq<string>>): seq<Input>
    decreases |ps|
  {
    if ps == [] then [] else Press(ps[0]) + Presses(ps[1..])
  }

  /** How many of the key sets held while `keys` go down after `held`
      have the same values as `watched`. */
  function MatchesOf(watched: seq<string>, held: seq<string>, keys: seq<string>): nat
    decreases |keys|
  {
    if keys == [] then 0
    else (if SameValues(held + [keys[0]], watched) then 1 else 0) + MatchesOf(watched, held + [keys[0]], keys[1..])
  }

  /** `MatchesOf` summed over several presses, each from nothing held. */
  function TotalMatches(watched: seq<string>, ps: seq<seq<string>>): nat
    decreases |ps|
  {
    if ps == [] then 0 else MatchesOf(watched, [], ps[0]) + TotalMatches(watched, ps[1..])
  }

  /** A binding of the plain kind: no double-press flag and no plugins,
      and it does not watch the empty code of a named key event. */
  predicate Plain(c: Config) {
    !c.twice && c.plugins == [] && "" !in c.watched
  }

  /** A press of different named keys. */
  ghost predicate PressKeys(keys: seq<string>) {
    Distinct(keys) && "" !in keys
  }

  /** Every press in `ps` is of different named keys. */
  ghost predicate AllPressKeys(ps: seq<seq<string>>)
    decreases |ps|
  {
    ps == [] || (PressKeys(ps[0]) && AllPressKeys(ps[1..]))
  }

  /** One key-down of a named key on a plain binding: the key is recorded,
      and the handler fires iff the held keys then have the watched values. */
  lemma PlainDown(c: Config, p: Progress, k: string)
    requires Plain(c)
    ensures OnKeyDown(c.watched, c.twice, c.plugins, p, Named(k), false).progress.pressed == p.pressed + [k]
    ensures OnKeyDown(c.watched, c.twice, c.plugins, p, Named(k), false).stage == Fired
        <==> SameValues(p.pressed + [k], c.watched)
  {
    assert Recorded(c.watched, k, "") == k;
    assert !Vetoes([], c.watched) by { assert LoopOverPlugins([], BeforeHandled, [Keys(c.watched)]) == []; }
  }

  /** The key-downs record each key, and the handler fires once for every
      held key set that matches. */
  lemma {:induction false} DownsRun(c: Config, p: Progress, keys: seq<string>)
    requires Plain(c)
    ensures Run(c, p, Downs(keys)).final.pressed == p.pressed + keys
    ensures Run(c, p, Downs(keys)).matches == MatchesOf(c.watched, p.pressed, keys)
    decreases |keys|
  {
    if keys == [] {
      assert p.pressed + keys == p.pressed;
    } else {
      var k, rest := keys[0], keys[1..];
      PlainDown(c, p, k);
      var d := OnKeyDown(c.watched, c.twice, c.plugins, p, Named(k), false);
      assert Downs(keys) == [Pressed(k)] + Downs(rest);
      RunOne(c, p, Pressed(k));
      RunAppend(c, p, [Pressed(k)], Downs(rest));
      DownsRun(c, d.progress, rest);
      assert (p.pressed + [k]) + rest == p.pressed + keys;
    }
  }

  /** Lifting the first of the held keys drops exactly it. */
  lemma DropFirst(keys: seq<string>)
    requires PressKeys(keys) && keys != []
    ensures RemoveAll(keys, {keys[0], ""}) == keys[1..]
    ensures PressKeys(keys[1..])
  {
    var k, rest := keys[0], keys[1..];
    var drop := {k, ""};
    assert keys == [k] + rest;
    RemoveAllAppend([k], rest, drop);
    RemoveAllSingleton(k, drop);
    DistinctTail(keys);
    assert "" !in rest;
    RemoveAllNone(rest, drop);
  }

  /** Lifting the held keys in the order they went down: nothing is left
      held, and nothing fires. */
  lemma {:induction false} UpsRun(c: Config, p: Progress, keys: seq<string>)
    requires PressKeys(keys) && p.pressed == keys
    ensures Run(c, p, Ups(keys)).final.pressed == []
    ensures Run(c, p, Ups(keys)).matches == 0
    decreases |keys|
  {
    if keys != [] {
      var k, rest := keys[0], keys[1..];
      DropFirst(keys);
      var u := OnKeyUp(p, Named(k));
      assert u.progress.pressed == rest;
      assert Ups(keys) == [Lifted(k)] + Ups(rest);
      RunOne(c, p, Lifted(k));
      RunAppend(c, p, [Lifted(k)], Ups(rest));
      UpsRun(c, u.progress, rest);
    }
  }

  /** One press from nothing held: the handler fires once per matching
      held key set, and nothing is held afterwards. */
  lemma PressRun(c: Config, p: Progress, keys: seq<string>)
    requires Plain(c) && PressKeys(keys) && p.pressed == []
    ensures Run(c, p, Press(keys)).final.pressed == []
    ensures Run(c, p, Press(keys)).matches == MatchesOf(c.watched, [], keys)
  {
    DownsRun(c, p, keys);
    assert [] + keys == keys;
    UpsRun(c, Run(c, p, Downs(keys)).final, keys);
    RunAppend(c, p, Downs(keys), Ups(keys));
  }

  /** Presses in a row: the handler calls of each press add up. */
  lemma {:induction false} PressesRun(c: Config, p: Progress, ps: seq<seq<string>>)
    requires Plain(c) && p.pressed == [] && AllPressKeys(ps)
    ensures Run(c, p, Presses(ps)).final.pressed == []
    ensures Run(c, p, Presses(ps)).matches == TotalMatches(c.watched, ps)
    decreases |ps|
  {
    if ps != [] {
      PressRun(c, p, ps[0]);
      var q := Run(c, p, Press(ps[0])).final;
      PressesRun(c, q, ps[1..]);
      RunAppend(c, p, Press(ps[0]), Presses(ps[1..]));
    }
  }

  /** Key sets shorter than the watched keys never match. */
  lemma {:induction false} MatchesShort(watched: seq<string>, held: seq<string>, keys: seq<string>)
    requires |held| + |keys| < |watched|
    ensures MatchesOf(watched, held, keys) == 0
    decreases |keys|
  {
    if keys != [] {
      MatchesShort(watched, held + [keys[0]], keys[1..]);
    }
  }

  /** A press that ends with as many keys held as are watched can match
      only at its last key-down. */
  lemma {:induction false} MatchesLast(watched: seq<string>, held: seq<string>, keys: seq<string>)
    requires keys != [] && |held| + |keys| == |watched|
    ensures MatchesOf(watched, held, keys) == if SameValues(held + keys, watched) then 1 else 0
    decreases |keys|
  {
    if |keys| == 1 {
      assert keys == [keys[0]];
    } else {
      MatchesLast(watched, held + [keys[0]], keys[1..]);
      assert (held + [keys[0]]) + keys[1..] == held + keys;
    }
  }

  /** The presses of "it can have a grouped key modifier". */
  function GroupTestPresses(a: string, z: string, b: string, c: string): seq<seq<string>> {
    [[b], [c], [a, b], [a, c], [a, c, z], [a, b, z]]
  }

  /** Four different key names, none of them empty. */
  predicate FourNamedKeys(a: string, z: string, b: string, c: string) {
    FourKeys(a, z, b, c) && a != "" && z != "" && b != "" && c != ""
  }

  /** The handler calls of a press come before those of the presses after it. */
  lemma TotalMatchesCons(w: seq<string>, keys: seq<string>, rest: seq<seq<string>>)
    ensures TotalMatches(w, [keys] + rest) == MatchesOf(w, [], keys) + TotalMatches(w, rest)
  {
    assert ([keys] + rest)[1..] == rest;
  }

  /** A press of different named keys can lead a run of such presses. */
  lemma AllPressKeysCons(keys: seq<string>, rest: seq<seq<string>>)
    requires PressKeys(keys) && AllPressKeys(rest)
    ensures AllPressKeys([keys] + rest)
  {
    assert ([keys] + rest)[1..] == rest;
  }

  /** For a watched set of three keys, those presses match as often as
      their two three-key presses do. */
  lemma GroupedTotal(w: seq<string>, a: string, z: string, b: string, c: string)
    requires |w| == 3
    ensures TotalMatches(w, GroupTestPresses(a, z, b, c))
         == (if SameValues([a, c, z], w) then 1 else 0) + (if SameValues([a, b, z], w) then 1 else 0)
  {
    MatchesShort(w, [], [b]);
    MatchesShort(w, [], [c]);
    MatchesShort(w, [], [a, b]);
    MatchesShort(w, [], [a, c]);
    MatchesLast(w, [], [a, c, z]);
    MatchesLast(w, [], [a, b, z]);
    assert [] + [a, c, z] == [a, c, z] && [] + [a, b, z] == [a, b, z];
    var t5: seq<seq<string>> := [[a, b, z]];
    TotalMatchesCons(w, [a, b, z], []);
    assert [[a, b, z]] + [] == t5;
    var t4 := [[a, c, z]] + t5;
    TotalMatchesCons(w, [a, c, z], t5);
    var t3 := [[a, c]] + t4;
    TotalMatchesCons(w, [a, c], t4);
    var t2 := [[a, b]] + t3;
    TotalMatchesCons(w, [a, b], t3);
    var t1 := [[c]] + t2;
    TotalMatchesCons(w, [c], t2);
    TotalMatchesCons(w, [b], t1);
    assert GroupTestPresses(a, z, b, c) == [[b]] + t1;
  }

  /** Each press of those presses is of different named keys. */
  lemma GroupedPressKeys(a: string, z: string, b: string, c: string)
    requires FourNamedKeys(a, z, b, c)
    ensures AllPressKeys(GroupTestPresses(a, z, b, c))
  {
    var t5: seq<seq<string>> := [[a, b, z]];
    assert PressKeys([a, b, z]);
    AllPressKeysCons([a, b, z], []);
    assert [[a, b, z]] + [] == t5;
    var t4 := [[a, c, z]] + t5;
    assert PressKeys([a, c, z]);
    AllPressKeysCons([a, c, z], t5);
    var t3 := [[a, c]] + t4;
    assert PressKeys([a, c]);
    AllPressKeysCons([a, c], t4);
    var t2 := [[a, b]] + t3;
    assert PressKeys([a, b]);
    AllPressKeysCons([a, b], t3);
    var t1 := [[c]] + t2;
    assert PressKeys([c]);
    AllPressKeysCons([c], t2);
    assert PressKeys([b]);
    AllPressKeysCons([b], t1);
    assert GroupTestPresses(a, z, b, c) == [[b]] + t1;
  }

  /** "it can have a grouped key modifier", as runs: every key event of the
      test's presses reaches both grouped bindings, and each handler runs
      once, two handler calls in all. */
  lemma GroupedHandlersFireTwice(a: string, z: string, b: string, c: string)
    requires FourNamedKeys(a, z, b, c)
    ensures var ps := Presses(GroupTestPresses(a, z, b, c));
            Run(Config([a, z, b], false, []), Fresh, ps).matches == 1
            && Run(Config([a, z, c], false, []), Fresh, ps).matches == 1
  {
    var ps := GroupTestPresses(a, z, b, c);
    GroupedPressKeys(a, z, b, c);
    PressesRun(Config([a, z, b], false, []), Fresh, ps);
    PressesRun(Config([a, z, c], false, []), Fresh, ps);
    GroupedKeysMatch(a, z, b, c);
    GroupedTotal([a, z, b], a, z, b, c);
    GroupedTotal([a, z, c], a, z, b, c);
  }
}
