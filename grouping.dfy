/** The modifier prefixing of `group` (PendingKeyboardEventManager.js,
    lines 11-23) as a pure function: which key lists the registrations
    made by a group's handler end up watching. The handler is user code;
    here it is described by the registrations it makes, which may include
    a group of its own. */
module Grouping {
  import opened Plugins

  /** `group`'s first argument: one key string, or an array of keys. */
  datatype KeySpec = Single(key: string) | Many(keys: seq<string>)

  /** `typeof keys === 'string' ? [keys] : keys`. */
  function ModifiersOf(spec: KeySpec): seq<string> {
    match spec
    case Single(key) => [key]
    case Many(keys) => keys
  }

  /** One thing a group handler does: `register(...keys)`, or a `group` call. */
  datatype Step = Reg(keys: seq<string>) | Nested(spec: KeySpec, handler: seq<Step>)

  /** What running a handler does: the watched keys of the bindings it
      registers, in order, and the manager's `modifiers` afterwards. */
  datatype Effect = Effect(registered: seq<seq<string>>, modifiers: seq<string>)

  /** Run one step with `modifiers` current. A registration prefixes the
      current modifiers; a nested group installs its own modifiers, runs
      its handler and leaves the modifiers empty. */
  function PerformStep(modifiers: seq<string>, step: Step): (r: Effect)
    ensures step.Reg? ==> r.registered == [modifiers + step.keys] && r.modifiers == modifiers
    ensures step.Nested? ==> r.modifiers == []
    decreases step
  {
    match step
    case Reg(keys) => Effect([modifiers + keys], modifiers)
    case Nested(spec, inner) => Effect(Perform(ModifiersOf(spec), inner).registered, [])
  }

  /** Run `handler`'s steps in order with `modifiers` current. */
  function Perform(modifiers: seq<string>, handler: seq<Step>): (r: Effect)
    ensures r.modifiers == modifiers || r.modifiers == []
    ensures (exists i :: 0 <= i < |handler| && handler[i].Nested?) ==> r.modifiers == []
    decreases handler
  {
    if handler == [] then Effect([], modifiers)
    else
      var first := PerformStep(modifiers, handler[0]);
      var rest := Perform(first.modifiers, handler[1..]);
      Effect(first.registered + rest.registered, rest.modifiers)
  }

  /** A handler run in two parts: the second part starts from the modifiers
      the first left behind. */
  lemma {:induction false} PerformAppend(modifiers: seq<string>, h1: seq<Step>, h2: seq<Step>)
    ensures Perform(modifiers, h1 + h2).registered
         == Perform(modifiers, h1).registered + Perform(Perform(modifiers, h1).modifiers, h2).registered
    ensures Perform(modifiers, h1 + h2).modifiers == Perform(Perform(modifiers, h1).modifiers, h2).modifiers
    decreases h1
  {
    if h1 == [] {
      assert h1 + h2 == h2;
    } else {
      assert (h1 + h2)[0] == h1[0];
      assert (h1 + h2)[1..] == h1[1..] + h2;
      var first := PerformStep(modifiers, h1[0]);
      var r1 := Perform(first.modifiers, h1[1..]);
      PerformAppend(first.modifiers, h1[1..], h2);
      var r2 := Perform(r1.modifiers, h2);
      assert first.registered + (r1.registered + r2.registered)
          == (first.registered + r1.registered) + r2.registered;
    }
  }

  /** A handler that only registers: each binding watches the modifiers
      followed by its own keys, one binding per registration. */
  lemma {:induction false} FlatHandlerPrefixes(modifiers: seq<string>, handler: seq<Step>)
    requires forall i :: 0 <= i < |handler| ==> handler[i].Reg?
    ensures |Perform(modifiers, handler).registered| == |handler|
    ensures forall i :: 0 <= i < |handler| ==>
              Perform(modifiers, handler).registered[i] == modifiers + handler[i].keys
    ensures Perform(modifiers, handler).modifiers == modifiers
  {
    if handler != [] {
      var tail := handler[1..];
      assert forall i :: 0 <= i < |tail| ==> tail[i] == handler[i + 1];
      FlatHandlerPrefixes(modifiers, tail);
    }
  }

  /** Groups replace rather than nest: inside a nested group only its own
      modifiers are prefixed, and a registration after it, still inside the
      outer group, gets no modifier at all. */
  lemma GroupsDoNotNest(outer: KeySpec, inner: KeySpec, k1: seq<string>, k2: seq<string>)
    ensures Perform(ModifiersOf(outer), [Nested(inner, [Reg(k1)]), Reg(k2)])
         == Effect([ModifiersOf(inner) + k1, k2], [])
  {
    var h := [Nested(inner, [Reg(k1)]), Reg(k2)];
    assert h[1..] == [Reg(k2)];
    assert [Reg(k2)][1..] == [];
    assert [Reg(k1)][1..] == [];
    assert Perform(ModifiersOf(inner), [Reg(k1)]).registered == [ModifiersOf(inner) + k1];
    assert Perform([], [Reg(k2)]) == Effect([[] + k2], []);
    assert [] + k2 == k2;
  }

  /** The `bindingRegistered` callbacks called for a list of registrations,
      in order. */
  function RegistrationLog(plugins: seq<Plugin>, registered: seq<seq<string>>): seq<Invocation>
    decreases |registered|
  {
    if registered == [] then []
    else
      RegistrationLog(plugins, registered[..|registered| - 1])
        + Invocations(plugins, BindingRegistered, [Keys(registered[|registered| - 1])])
  }

  /** One more registration adds its callbacks at the end of the log. */
  lemma RegistrationLogSnoc(plugins: seq<Plugin>, registered: seq<seq<string>>, keys: seq<string>)
    ensures RegistrationLog(plugins, registered + [keys])
         == RegistrationLog(plugins, registered) + Invocations(plugins, BindingRegistered, [Keys(keys)])
  {
    assert (registered + [keys])[..|registered|] == registered;
  }

  /** A log that held `RegistrationLog` after `log0` still does once one more
      registration's callbacks are appended. */
  lemma LogAfterRegistration(log0: seq<Invocation>, log: seq<Invocation>, plugins: seq<Plugin>,
                             registered: seq<seq<string>>, keys: seq<string>)
    requires log == log0 + RegistrationLog(plugins, registered)
    ensures log + Invocations(plugins, BindingRegistered, [Keys(keys)])
         == log0 + RegistrationLog(plugins, registered + [keys])
  {
    RegistrationLogSnoc(plugins, registered, keys);
  }

  // ---------------------------------------------------------------------
  // The same handler seen from the manager: the assignments to `modifiers`
  // and the `register` calls it causes, in order.

  /** One thing the manager sees: `modifiers` assigned, or `register` called. */
  datatype Op = SetModifiers(mods: seq<string>) | RegisterKeys(keys: seq<string>)

  /** The manager operations of one handler step. */
  function StepOps(step: Step): seq<Op>
    decreases step, 2
  {
    match step
    case Reg(keys) => [RegisterKeys(keys)]
    case Nested(spec, inner) => GroupOps(spec, inner)
  }

  /** The manager operations of a handler: its steps' operations in order. */
  function HandlerOps(handler: seq<Step>): seq<Op>
    decreases handler, 0
  {
    if handler == [] then [] else StepOps(handler[0]) + HandlerOps(handler[1..])
  }

  /** `group(keys, handler)`: set the modifiers, run the handler, clear them. */
  function GroupOps(spec: KeySpec, handler: seq<Step>): seq<Op>
    decreases handler, 1
  {
    [SetModifiers(ModifiersOf(spec))] + HandlerOps(handler) + [SetModifiers([])]
  }

  /** Carry out manager operations from `modifiers`, one at a time. */
  function Exec(modifiers: seq<string>, ops: seq<Op>): Effect
    decreases |ops|
  {
    if ops == [] then Effect([], modifiers)
    else
      var e := Exec(modifiers, ops[..|ops| - 1]);
      match ops[|ops| - 1]
      case SetModifiers(mods) => Effect(e.registered, mods)
      case RegisterKeys(keys) => Effect(e.registered + [e.modifiers + keys], e.modifiers)
  }

  /** Operations carried out in two parts. */
  lemma {:induction false} ExecAppend(modifiers: seq<string>, a: seq<Op>, b: seq<Op>)
    ensures Exec(modifiers, a + b).registered
         == Exec(modifiers, a).registered + Exec(Exec(modifiers, a).modifiers, b).registered
    ensures Exec(modifiers, a + b).modifiers == Exec(Exec(modifiers, a).modifiers, b).modifiers
    decreases |b|
  {
    if b == [] {
      assert a + b == a;
    } else {
      var b', last := b[..|b| - 1], b[|b| - 1];
      assert (a + b)[..|a + b| - 1] == a + b';
      assert (a + b)[|a + b| - 1] == last;
      ExecAppend(modifiers, a, b');
      var ea, eb := Exec(modifiers, a), Exec(Exec(modifiers, a).modifiers, b');
      match last {
        case SetModifiers(mods) =>
        case RegisterKeys(keys) =>
          assert (ea.registered + eb.registered) + [eb.modifiers + keys]
              == ea.registered + (eb.registered + [eb.modifiers + keys]);
      }
    }
  }

  /** A single operation. */
  lemma ExecOne(modifiers: seq<string>, op: Op)
    ensures op.SetModifiers? ==> Exec(modifiers, [op]) == Effect([], op.mods)
    ensures op.RegisterKeys? ==> Exec(modifiers, [op]) == Effect([modifiers + op.keys], modifiers)
  {
    assert [op][..0] == [];
  }

  /** The manager's view of a step agrees with `PerformStep`. */
  lemma {:induction false} StepOpsAgree(modifiers: seq<string>, step: Step)
    ensures Exec(modifiers, StepOps(step)) == PerformStep(modifiers, step)
    decreases step, 2
  {
    match step {
      case Reg(keys) =>
        ExecOne(modifiers, RegisterKeys(keys));
      case Nested(spec, inner) =>
        GroupOpsAgree(modifiers, spec, inner);
    }
  }

  /** The manager's view of a handler agrees with `Perform`. */
  lemma {:induction false} HandlerOpsAgree(modifiers: seq<string>, handler: seq<Step>)
    ensures Exec(modifiers, HandlerOps(handler)) == Perform(modifiers, handler)
    decreases handler, 0
  {
    if handler != [] {
      StepOpsAgree(modifiers, handler[0]);
      var first := PerformStep(modifiers, handler[0]);
      HandlerOpsAgree(first.modifiers, handler[1..]);
      ExecAppend(modifiers, StepOps(handler[0]), HandlerOps(handler[1..]));
    }
  }

  /** The manager's view of a group: the registrations `Perform` gives for
      the group's own modifiers, whatever the modifiers were before, and
      empty modifiers afterwards. */
  lemma {:induction false} GroupOpsAgree(modifiers: seq<string>, spec: KeySpec, handler: seq<Step>)
    ensures Exec(modifiers, GroupOps(spec, handler)) == Effect(Perform(ModifiersOf(spec), handler).registered, [])
    decreases handler, 1
  {
    var set1, body, clear := [SetModifiers(ModifiersOf(spec))], HandlerOps(handler), [SetModifiers([])];
    ExecOne(modifiers, set1[0]);
    HandlerOpsAgree(ModifiersOf(spec), handler);
    ExecAppend(modifiers, set1, body);
    ExecOne(Exec(modifiers, set1 + body).modifiers, clear[0]);
    ExecAppend(modifiers, set1 + body, clear);
  }
}
