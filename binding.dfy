/** The per-binding state machine of PendingKeyboardEvent.js as pure
    transition functions: what one key-down, one key-up or one expiry of
    the double-press timer does to a binding's bookkeeping. The class
    `Engine.PendingKeyboardEvent` keeps these values in fields and is
    proved to follow these functions. */
module Binding {
  import opened Seqs
  import opened KeyMatching
  import opened Plugins

  /** A keyboard event as the listeners read it: `event.key`, `event.code`. */
  datatype KeyEvent = KeyEvent(key: string, code: string)

  /** The mutable bookkeeping of a binding:
      `keysCurrentlyBeingPressed`, `_pressCount`, the number of double-press
      resets scheduled with `setTimeout` and not yet run, and the two totals
      `_totalKeyDownCountForKeysToWatch` / `_totalKeyUpCountForKeysToWatch`. */
  datatype Progress = Progress(pressed: seq<string>, pressCount: nat, pendingResets: nat,
                               downCount: nat, upCount: nat)

  /** The bookkeeping of a new binding. */
  const Fresh := Progress([], 0, 0, 0, 0)

  /** How far a key-down got through the key-down listener: the keys did
      not match, the double-press gate deferred it, an element had focus,
      a plugin vetoed it, or the handler fired. */
  datatype Stage = Unmatched | Deferred | Focused | Vetoed | Fired

  datatype DownResult = DownResult(progress: Progress, stage: Stage)

  /** `acknowledged`: the key-up completed a release of an unacknowledged match
      (the release handler, if one is set, is then called). */
  datatype UpResult = UpResult(progress: Progress, acknowledged: bool)

  /** The matched press count after `_shouldHandleOrSkipDoublePress`. */
  function GateCount(twice: bool, pressCount: nat): nat {
    if twice then pressCount + 1 else pressCount
  }

  /** `_shouldHandleOrSkipDoublePress` lets the key-down through. */
  predicate GatePasses(twice: bool, pressCount: nat) {
    !twice || pressCount + 1 == 2
  }

  /** The results of the `beforeBindingHandled` dispatch contain `false`. */
  predicate Vetoes(plugins: seq<Plugin>, watched: seq<string>) {
    HasVeto(LoopOverPlugins(plugins, BeforeHandled, [Keys(watched)]))
  }

  /** The key-down listener (PendingKeyboardEvent.js, lines 21-54) on a
      binding watching `watched`, with `_onlyFireOnDoublePress == twice`,
      the binding's plugins `plugins`, and `focused` standing for
      `_manager.focusedElement`. */
  function OnKeyDown(watched: seq<string>, twice: bool, plugins: seq<Plugin>,
                     p: Progress, ev: KeyEvent, focused: bool): (r: DownResult)
    ensures r.progress.pressed == p.pressed + [Recorded(watched, ev.key, ev.code)]
    ensures r.stage == Unmatched <==> !SameValues(r.progress.pressed, watched)
    ensures r.stage == Deferred <==>
              SameValues(r.progress.pressed, watched) && !GatePasses(twice, p.pressCount)
    ensures r.stage == Fired <==>
              SameValues(r.progress.pressed, watched) && GatePasses(twice, p.pressCount)
              && !focused && !Vetoes(plugins, watched)
    ensures r.stage == Focused <==>
              SameValues(r.progress.pressed, watched) && GatePasses(twice, p.pressCount) && focused
    ensures r.stage == Vetoed <==>
              SameValues(r.progress.pressed, watched) && GatePasses(twice, p.pressCount)
              && !focused && Vetoes(plugins, watched)
    ensures r.progress.pressCount == match r.stage
              case Unmatched => p.pressCount
              case Deferred | Focused => GateCount(twice, p.pressCount)
              case Vetoed | Fired => 0
    ensures r.progress.downCount == if r.stage == Fired then p.downCount + 1 else p.downCount
    ensures r.progress.pendingResets == if r.stage == Deferred then p.pendingResets + 1 else p.pendingResets
    ensures r.progress.upCount == p.upCount
  {
    var q := p.(pressed := p.pressed + [Recorded(watched, ev.key, ev.code)]);
    if !SameValues(q.pressed, watched) then DownResult(q, Unmatched)
    else AfterMatch(watched, twice, plugins, q, focused)
  }

  /** The rest of the key-down listener once the recorded keys match
      (lines 29-53): the double-press gate, the focus guard, the veto and
      the handler. */
  function AfterMatch(watched: seq<string>, twice: bool, plugins: seq<Plugin>,
                      q: Progress, focused: bool): (r: DownResult)
    ensures r.progress.pressed == q.pressed && r.stage != Unmatched
    ensures r.stage == Deferred <==> !GatePasses(twice, q.pressCount)
    ensures r.stage == Fired <==> GatePasses(twice, q.pressCount) && !focused && !Vetoes(plugins, watched)
    ensures r.stage == Focused <==> GatePasses(twice, q.pressCount) && focused
    ensures r.stage == Vetoed <==> GatePasses(twice, q.pressCount) && !focused && Vetoes(plugins, watched)
    ensures r.progress.pressCount == match r.stage
              case Unmatched | Deferred | Focused => GateCount(twice, q.pressCount)
              case Vetoed | Fired => 0
    ensures r.progress.downCount == if r.stage == Fired then q.downCount + 1 else q.downCount
    ensures r.progress.pendingResets == if r.stage == Deferred then q.pendingResets + 1 else q.pendingResets
    ensures r.progress.upCount == q.upCount
  {
    var count := GateCount(twice, q.pressCount);
    if twice && count != 2 then
      DownResult(q.(pressCount := count, pendingResets := q.pendingResets + 1), Deferred)
    else if focused then
      DownResult(q.(pressCount := count), Focused)
    else if Vetoes(plugins, watched) then
      DownResult(q.(pressCount := 0), Vetoed)
    else
      DownResult(q.(pressCount := 0, downCount := q.downCount + 1), Fired)
  }

  /** The key-up listener (PendingKeyboardEvent.js, lines 56-74). */
  function OnKeyUp(p: Progress, ev: KeyEvent): (r: UpResult)
    ensures r.progress.pressed == RemoveAll(p.pressed, {ev.key, ev.code})
    ensures r.acknowledged <==> r.progress.pressed == [] && p.downCount > p.upCount
    ensures r.progress.upCount == if r.acknowledged then p.downCount else p.upCount
    ensures r.progress.(pressed := p.pressed, upCount := p.upCount) == p
  {
    var pressed := RemoveAll(p.pressed, {ev.key, ev.code});
    if |pressed| != 0 || p.downCount <= p.upCount then
      UpResult(p.(pressed := pressed), false)
    else
      UpResult(p.(pressed := pressed, upCount := p.downCount), true)
  }

  /** A scheduled double-press reset runs (the `setTimeout` callback). */
  function OnTimeout(p: Progress): (r: Progress)
    requires p.pendingResets > 0
    ensures r.pressCount == 0 && r.pendingResets + 1 == p.pendingResets
    ensures r.(pressCount := p.pressCount, pendingResets := p.pendingResets) == p
  {
    p.(pressCount := 0, pendingResets := p.pendingResets - 1)
  }

  /** The bookkeeping invariant: every acknowledged release is backed by a match. */
  ghost predicate Balanced(p: Progress) {
    p.upCount <= p.downCount
  }

  /** Each single transition keeps the invariant. */
  lemma StepsKeepBalance(watched: seq<string>, twice: bool, plugins: seq<Plugin>,
                         p: Progress, ev: KeyEvent, focused: bool)
    requires Balanced(p)
    ensures Balanced(OnKeyDown(watched, twice, plugins, p, ev, focused).progress)
    ensures Balanced(OnKeyUp(p, ev).progress)
    ensures p.pendingResets > 0 ==> Balanced(OnTimeout(p))
  {
  }

  // ---------------------------------------------------------------------
  // Runs of events against one binding that stays attached.

  /** One serialized event reaching a binding. */
  datatype Input = Down(ev: KeyEvent, focused: bool) | Up(ev: KeyEvent) | Timeout

  /** The fixed part of a binding: its keys, the double-press flag, its plugins. */
  datatype Config = Config(watched: seq<string>, twice: bool, plugins: seq<Plugin>)

  /** After a run: the bookkeeping, how often the match handler fired and
      how many releases were acknowledged. */
  datatype Trace = Trace(final: Progress, matches: nat, releases: nat)

  /** Feed `inputs` to a binding in order. A timer expiry with no reset
      pending cannot be delivered and changes nothing. */
  function Run(c: Config, p: Progress, inputs: seq<Input>): Trace
    decreases |inputs|
  {
    if inputs == [] then Trace(p, 0, 0)
    else
      match inputs[0]
      case Down(ev, focused) =>
        var d := OnKeyDown(c.watched, c.twice, c.plugins, p, ev, focused);
        var t := Run(c, d.progress, inputs[1..]);
        t.(matches := t.matches + if d.stage == Fired then 1 else 0)
      case Up(ev) =>
        var u := OnKeyUp(p, ev);
        var t := Run(c, u.progress, inputs[1..]);
        t.(releases := t.releases + if u.acknowledged then 1 else 0)
      case Timeout =>
        Run(c, if p.pendingResets > 0 then OnTimeout(p) else p, inputs[1..])
  }

  /** One event on its own. */
  lemma RunOne(c: Config, p: Progress, x: Input)
    ensures x.Down? ==>
              var d := OnKeyDown(c.watched, c.twice, c.plugins, p, x.ev, x.focused);
              Run(c, p, [x]) == Trace(d.progress, if d.stage == Fired then 1 else 0, 0)
    ensures x.Up? ==>
              var u := OnKeyUp(p, x.ev);
              Run(c, p, [x]) == Trace(u.progress, 0, if u.acknowledged then 1 else 0)
    ensures x.Timeout? ==> Run(c, p, [x]) == Trace(if p.pendingResets > 0 then OnTimeout(p) else p, 0, 0)
  {
    assert [x][1..] == [];
  }

  /** A run in two parts: the second part starts where the first ended,
      and the handler calls of both parts add up. */
  lemma {:induction false} RunAppend(c: Config, p: Progress, a: seq<Input>, b: seq<Input>)
    ensures Run(c, p, a + b).final == Run(c, Run(c, p, a).final, b).final
    ensures Run(c, p, a + b).matches == Run(c, p, a).matches + Run(c, Run(c, p, a).final, b).matches
    ensures Run(c, p, a + b).releases == Run(c, p, a).releases + Run(c, Run(c, p, a).final, b).releases
    decreases |a|
  {
    if a == [] {
      assert a + b == b;
    } else {
      assert (a + b)[0] == a[0];
      assert (a + b)[1..] == a[1..] + b;
      match a[0] {
        case Down(ev, focused) =>
          RunAppend(c, OnKeyDown(c.watched, c.twice, c.plugins, p, ev, focused).progress, a[1..], b);
        case Up(ev) =>
          RunAppend(c, OnKeyUp(p, ev).progress, a[1..], b);
        case Timeout =>
          RunAppend(c, if p.pendingResets > 0 then OnTimeout(p) else p, a[1..], b);
      }
    }
  }

  /** Over any run, the key-down total counts the matches, and the
      releases acknowledged never outnumber what the key-up total gained,
      which in turn never passes the key-down total. */
  lemma {:induction false} RunBookkeeping(c: Config, p: Progress, inputs: seq<Input>)
    requires Balanced(p)
    ensures Run(c, p, inputs).final.downCount == p.downCount + Run(c, p, inputs).matches
    ensures Balanced(Run(c, p, inputs).final)
    ensures Run(c, p, inputs).releases <= Run(c, p, inputs).final.upCount - p.upCount
    decreases |inputs|
  {
    if inputs != [] {
      match inputs[0]
      case Down(ev, focused) =>
        RunBookkeeping(c, OnKeyDown(c.watched, c.twice, c.plugins, p, ev, focused).progress, inputs[1..]);
      case Up(ev) =>
        RunBookkeeping(c, OnKeyUp(p, ev).progress, inputs[1..]);
      case Timeout =>
        RunBookkeeping(c, if p.pendingResets > 0 then OnTimeout(p) else p, inputs[1..]);
    }
  }

  /** From a new binding, releases are at most one per match: a release is
      never reported without a match before it. */
  lemma ReleasesNeverExceedMatches(c: Config, inputs: seq<Input>)
    ensures Run(c, Fresh, inputs).releases <= Run(c, Fresh, inputs).matches
  {
    RunBookkeeping(c, Fresh, inputs);
  }

  /** A release is acknowledged only once every key is lifted, and a
      second key-up right after it acknowledges nothing. */
  lemma {:induction false} ReleaseOncePerMatch(p: Progress, e1: KeyEvent, e2: KeyEvent)
    requires OnKeyUp(p, e1).acknowledged
    ensures OnKeyUp(p, e1).progress.pressed == []
    ensures !OnKeyUp(OnKeyUp(p, e1).progress, e2).acknowledged
  {
  }

  /** A binding on one key `k` with the double-press flag: two taps make
      one match and one release. */
  lemma {:induction false} DoubleTapFires(k: string, code: string)
    ensures Run(Config([k], true, []), Fresh,
                [Down(KeyEvent(k, code), false), Up(KeyEvent(k, code)),
                 Down(KeyEvent(k, code), false), Up(KeyEvent(k, code))]).matches == 1
    ensures Run(Config([k], true, []), Fresh,
                [Down(KeyEvent(k, code), false), Up(KeyEvent(k, code)),
                 Down(KeyEvent(k, code), false), Up(KeyEvent(k, code))]).releases == 1
  {
    var c, ev := Config([k], true, []), KeyEvent(k, code);
    var inputs := [Down(ev, false), Up(ev), Down(ev, false), Up(ev)];
    assert SameValues([k], [k]);
    assert !Vetoes([], [k]) by { assert LoopOverPlugins([], BeforeHandled, [Keys([k])]) == []; }
    RemoveAllSingleton(k, {k, code});
    var d1 := OnKeyDown([k], true, [], Fresh, ev, false);
    assert d1.stage == Deferred && d1.progress == Progress([k], 1, 1, 0, 0);
    var u1 := OnKeyUp(d1.progress, ev);
    assert !u1.acknowledged && u1.progress == Progress([], 1, 1, 0, 0);
    var d2 := OnKeyDown([k], true, [], u1.progress, ev, false);
    assert d2.stage == Fired && d2.progress == Progress([k], 0, 1, 1, 0);
    var u2 := OnKeyUp(d2.progress, ev);
    assert u2.acknowledged && u2.progress == Progress([], 0, 1, 1, 1);
    assert inputs[1..][1..][1..][1..] == [];
    assert Run(c, u2.progress, inputs[4..]) == Trace(u2.progress, 0, 0);
    assert Run(c, d2.progress, inputs[3..]) == Trace(u2.progress, 0, 1);
    assert Run(c, u1.progress, inputs[2..]) == Trace(u2.progress, 1, 1);
    assert Run(c, d1.progress, inputs[1..]) == Trace(u2.progress, 1, 1);
  }

  /** The same taps with the reset timer expiring in between make no match. */
  lemma {:induction false} SlowDoubleTapDoesNotFire(k: string, code: string)
    ensures Run(Config([k], true, []), Fresh,
                [Down(KeyEvent(k, code), false), Up(KeyEvent(k, code)), Timeout,
                 Down(KeyEvent(k, code), false), Up(KeyEvent(k, code))]).matches == 0
  {
    var c, ev := Config([k], true, []), KeyEvent(k, code);
    var inputs := [Down(ev, false), Up(ev), Timeout, Down(ev, false), Up(ev)];
    var d1 := OnKeyDown([k], true, [], Fresh, ev, false);
    assert d1.progress.pressed == [k];
    assert SameValues([k], [k]);
    assert d1.stage == Deferred;
    var u1 := OnKeyUp(d1.progress, ev);
    assert u1.progress.pressed == [] by { RemoveAllSingleton(k, {k, code}); }
    var t1 := OnTimeout(u1.progress);
    assert t1.pressCount == 0;
    var d2 := OnKeyDown([k], true, [], t1, ev, false);
    assert d2.progress.pressed == [k];
    assert d2.stage == Deferred;
    var u2 := OnKeyUp(d2.progress, ev);
    assert inputs[1..][1..][1..][1..][1..] == [];
    assert Run(c, u2.progress, []).matches == 0;
    assert Run(c, d2.progress, inputs[4..]).matches == 0;
    assert Run(c, t1, inputs[3..]).matches == 0;
    assert Run(c, u1.progress, inputs[2..]).matches == 0;
    assert Run(c, d1.progress, inputs[1..]).matches == 0;
  }

  /** A plugin that vetoes: a full press of the watched key fires nothing,
      leaves the key-down total alone, and so no release follows. */
  lemma {:induction false} VetoSuppressesMatchAndRelease(k: string, code: string, plugins: seq<Plugin>)
    requires Vetoes(plugins, [k])
    ensures Run(Config([k], false, plugins), Fresh, [Down(KeyEvent(k, code), false), Up(KeyEvent(k, code))])
            == Trace(Progress([], 0, 0, 0, 0), 0, 0)
  {
    var c, ev := Config([k], false, plugins), KeyEvent(k, code);
    var inputs := [Down(ev, false), Up(ev)];
    var d := OnKeyDown([k], false, plugins, Fresh, ev, false);
    assert d.progress.pressed == [k];
    assert SameValues([k], [k]);
    assert d.stage == Vetoed;
    var u := OnKeyUp(d.progress, ev);
    assert u.progress.pressed == [] by { RemoveAllSingleton(k, {k, code}); }
    assert inputs[1..][1..] == [];
    assert Run(c, d.progress, inputs[1..]) == Trace(Progress([], 0, 0, 0, 0), 0, 0);
  }
}
