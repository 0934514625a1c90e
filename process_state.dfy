/**
 * The process-wide state that `init_context` and `forward_context` change and
 * restore: torch's default dtype and what the names `torch.nn.Linear` and
 * `torch.nn.LayerNorm` are bound to. Each active context manager is a generator
 * suspended at its `yield`, holding the values it saved on entry; `with`
 * statements nest, so the active ones form a stack.
 *
 * `Step` is the specification of one event; `Process` holds the state and its
 * methods are proved against `Step`.
 */
module ProcessState {
  import opened Wrappers

  /** A `torch.dtype`. */
  type DType(==)

  /** A class object that `torch.nn.Linear` or `torch.nn.LayerNorm` can be bound to. */
  datatype LayerClass = TorchLinear | TorchLayerNorm | TELinearClass | TELayerNormClass | OtherClass(id: nat)

  /** The current bindings of `torch.nn.Linear` and `torch.nn.LayerNorm`. */
  datatype Bindings = Bindings(linear: LayerClass, layerNorm: LayerClass)

  /** The bindings `init_context` installs when it replaces layers: `te.Linear` and `te.LayerNorm`. */
  const TEBindings := Bindings(TELinearClass, TELayerNormClass)

  datatype Globals = Globals(defaultDtype: DType, bindings: Bindings)

  /** The locals of a context manager suspended at its `yield`. */
  datatype Frame =
      /** `init_context`: the saved default dtype, and the saved bindings when it replaced layers. */
    | InitFrame(savedDtype: DType, savedBindings: Option<Bindings>)
      /** `forward_context`: the saved default dtype. */
    | ForwardFrame(savedDtype: DType)

  /** The globals, and the active context managers, innermost last. */
  datatype State = State(globals: Globals, active: seq<Frame>)

  /** A context manager entered with a plugin's `dtype` and the truth value of its `replace_layers`. */
  datatype Context = InitContext(dtype: DType, replaceLayers: bool) | ForwardContext(dtype: DType)

  /** What code inside a `with` body may do to the same globals. */
  datatype Action = SetDtype(dtype: DType) | SetLinear(cls: LayerClass) | SetLayerNorm(cls: LayerClass)

  datatype Event =
      /** Entering a context: the generator runs up to its `yield`. */
    | Enter(ctx: Context)
      /** Normal exit of the innermost context: the generator runs on after its `yield`. */
    | Exit
      /** An exception leaves the innermost context; with no `try`/`finally` around the `yield`, nothing after it runs. */
    | Raise
    | Act(action: Action)

  function Step(s: State, e: Event): State {
    match e
    case Enter(InitContext(dtype, replace)) =>
      var frame := InitFrame(s.globals.defaultDtype, if replace then Some(s.globals.bindings) else None);
      var bindings := if replace then TEBindings else s.globals.bindings;
      State(Globals(dtype, bindings), s.active + [frame])
    case Enter(ForwardContext(dtype)) =>
      State(Globals(dtype, s.globals.bindings), s.active + [ForwardFrame(s.globals.defaultDtype)])
    case Exit =>
      if s.active == [] then s
      else
        var top := s.active[|s.active| - 1];
        var bindings := if top.InitFrame? then top.savedBindings.GetOr(s.globals.bindings) else s.globals.bindings;
        State(Globals(top.savedDtype, bindings), s.active[..|s.active| - 1])
    case Raise =>
      if s.active == [] then s else State(s.globals, s.active[..|s.active| - 1])
    case Act(SetDtype(dtype)) => State(Globals(dtype, s.globals.bindings), s.active)
    case Act(SetLinear(cls)) => State(Globals(s.globals.defaultDtype, Bindings(cls, s.globals.bindings.layerNorm)), s.active)
    case Act(SetLayerNorm(cls)) => State(Globals(s.globals.defaultDtype, Bindings(s.globals.bindings.linear, cls)), s.active)
  }

  function Run(s: State, es: seq<Event>): State
    decreases |es|
  {
    if es == [] then s else Run(Step(s, es[0]), es[1..])
  }

  /** Code with `with` statements: an action, or a context manager around a body. */
  datatype Block =
    | Do(action: Action)
      /** `with ctx: body`, the body finishing normally. */
    | With(ctx: Context, body: seq<Block>)
      /**
       * `try: with ctx: body; raise ... except ...: pass`: the body ends by raising, the
       * exception leaves the context, and the enclosing code catches it and carries on.
       */
    | WithRaising(ctx: Context, body: seq<Block>)

  /** The events a block produces; an exception raised in a `WithRaising` goes no further than the block. */
  function BlockEvents(b: Block): seq<Event>
    decreases b
  {
    match b
    case Do(a) => [Act(a)]
    case With(ctx, body) => [Enter(ctx)] + Events(body) + [Exit]
    case WithRaising(ctx, body) => [Enter(ctx)] + Events(body) + [Raise]
  }

  function Events(bs: seq<Block>): seq<Event>
    decreases bs
  {
    if bs == [] then [] else BlockEvents(bs[0]) + Events(bs[1..])
  }

  /** Nested contexts only, each left normally: no code in any body touches the globals itself. */
  predicate NoActions(bs: seq<Block>)
    decreases bs
  {
    forall i :: 0 <= i < |bs| ==> bs[i].With? && NoActions(bs[i].body)
  }

  /** Whether leaving the context normally restores the layer bindings as well as the dtype. */
  predicate RestoresBindings(ctx: Context) {
    ctx.InitContext? && ctx.replaceLayers
  }

  // ---------------------------------------------------------------------------
  // Lemmas
  // ---------------------------------------------------------------------------

  lemma {:induction false} RunAppend(s: State, a: seq<Event>, b: seq<Event>)
    ensures Run(s, a + b) == Run(Run(s, a), b)
    decreases |a|
  {
    if a != [] {
      assert (a + b)[0] == a[0] && (a + b)[1..] == a[1..] + b;
      RunAppend(Step(s, a[0]), a[1..], b);
    } else {
      assert a + b == b;
    }
  }

  /** Blocks leave the stack of active contexts as they found it, including contexts left by a caught exception. */
  lemma {:induction false} BlocksKeepActive(s: State, bs: seq<Block>)
    ensures Run(s, Events(bs)).active == s.active
    decreases bs
  {
    if bs != [] {
      RunAppend(s, BlockEvents(bs[0]), Events(bs[1..]));
      BlockKeepsActive(s, bs[0]);
      BlocksKeepActive(Run(s, BlockEvents(bs[0])), bs[1..]);
    }
  }

  lemma {:induction false} BlockKeepsActive(s: State, b: Block)
    ensures Run(s, BlockEvents(b)).active == s.active
    decreases b
  {
    if !b.Do? {
      var last := if b.With? then Exit else Raise;
      assert BlockEvents(b) == [Enter(b.ctx)] + Events(b.body) + [last];
      var entered := Step(s, Enter(b.ctx));
      assert Run(s, [Enter(b.ctx)]) == entered;
      RunAppend(s, [Enter(b.ctx)], Events(b.body));
      RunAppend(s, [Enter(b.ctx)] + Events(b.body), [last]);
      BlocksKeepActive(entered, b.body);
      var inner := Run(entered, Events(b.body));
      assert Run(inner, [last]) == Step(inner, last);
      assert inner.active[..|inner.active| - 1] == s.active;
    }
  }

  /**
   * A context left normally restores the default dtype it found on entry, whatever
   * its body did (nested contexts left normally or by a caught exception included), and, for `init_context` with `replace_layers`, the layer bindings too;
   * otherwise the bindings are whatever the body left.
   */
  lemma {:induction false} WithRestores(s: State, ctx: Context, body: seq<Block>)
    ensures var inner := Run(Step(s, Enter(ctx)), Events(body));
            Run(s, BlockEvents(With(ctx, body))) ==
            State(Globals(s.globals.defaultDtype,
                          if RestoresBindings(ctx) then s.globals.bindings else inner.globals.bindings),
                  s.active)
  {
    var entered := Step(s, Enter(ctx));
    assert Run(s, [Enter(ctx)]) == entered;
    RunAppend(s, [Enter(ctx)], Events(body));
    RunAppend(s, [Enter(ctx)] + Events(body), [Exit]);
    BlocksKeepActive(entered, body);
    var inner := Run(entered, Events(body));
    assert Run(inner, [Exit]) == Step(inner, Exit);
    assert inner.active[..|inner.active| - 1] == s.active;
  }

  /** Properly nested contexts whose bodies touch nothing themselves leave the state as they found it. */
  lemma {:induction false} NestedContextsRestore(s: State, bs: seq<Block>)
    requires NoActions(bs)
    ensures Run(s, Events(bs)) == s
    decreases bs
  {
    if bs != [] {
      var b := bs[0];
      RunAppend(s, BlockEvents(b), Events(bs[1..]));
      WithRestores(s, b.ctx, b.body);
      NestedContextsRestore(Step(s, Enter(b.ctx)), b.body);
      assert NoActions(bs[1..]) by {
        forall i | 0 <= i < |bs[1..]| ensures bs[1..][i].With? && NoActions(bs[1..][i].body) {
          assert bs[1..][i] == bs[i + 1];
        }
      }
      NestedContextsRestore(s, bs[1..]);
    }
  }

  /**
   * Inside a context, after any nested contexts have come and gone, the default
   * dtype is the plugin's dtype and, for `init_context` with `replace_layers`, the
   * layer names are bound to the Transformer Engine classes.
   */
  lemma {:induction false} InsideContext(s: State, ctx: Context, body: seq<Block>)
    requires NoActions(body)
    ensures var inner := Run(Step(s, Enter(ctx)), Events(body));
            inner.globals.defaultDtype == ctx.dtype &&
            (RestoresBindings(ctx) ==> inner.globals.bindings == TEBindings) &&
            (!RestoresBindings(ctx) ==> inner.globals.bindings == s.globals.bindings)
  {
    NestedContextsRestore(Step(s, Enter(ctx)), body);
  }

  /**
   * An exception that leaves a context skips the restoring code: the globals stay as
   * the body left them, and only the context's frame is popped.
   */
  lemma {:induction false} WithRaisingLeaves(s: State, ctx: Context, body: seq<Block>)
    ensures Run(s, BlockEvents(WithRaising(ctx, body))) ==
            State(Run(Step(s, Enter(ctx)), Events(body)).globals, s.active)
  {
    var entered := Step(s, Enter(ctx));
    assert Run(s, [Enter(ctx)]) == entered;
    RunAppend(s, [Enter(ctx)], Events(body));
    RunAppend(s, [Enter(ctx)] + Events(body), [Raise]);
    BlocksKeepActive(entered, body);
    var inner := Run(entered, Events(body));
    assert Run(inner, [Raise]) == Step(inner, Raise);
    assert inner.active[..|inner.active| - 1] == s.active;
  }

  /**
   * With a body of normally exited nested contexts that set nothing themselves, an
   * exception leaving the context leaves the default dtype at the plugin's dtype and
   * replaced layer bindings replaced.
   */
  lemma {:induction false} RaiseLeaksGlobals(s: State, ctx: Context, body: seq<Block>)
    requires NoActions(body)
    ensures var after := Run(s, BlockEvents(WithRaising(ctx, body)));
            after.active == s.active &&
            after.globals.defaultDtype == ctx.dtype &&
            (RestoresBindings(ctx) ==> after.globals.bindings == TEBindings)
  {
    WithRaisingLeaves(s, ctx, body);
    NestedContextsRestore(Step(s, Enter(ctx)), body);
  }

  /**
   * A nested context left by an exception that the outer body catches does not stop
   * the outer context from restoring, on its own normal exit, the dtype it found and
   * the stack of active contexts.
   */
  lemma {:induction false} CaughtInsideRestores(s: State, outer: Context, inner: Context, body: seq<Block>)
    ensures var after := Run(s, BlockEvents(With(outer, [WithRaising(inner, body)])));
            after.globals.defaultDtype == s.globals.defaultDtype && after.active == s.active &&
            (RestoresBindings(outer) ==> after.globals.bindings == s.globals.bindings)
  {
    WithRestores(s, outer, [WithRaising(inner, body)]);
  }

  // ---------------------------------------------------------------------------
  // The state itself
  // ---------------------------------------------------------------------------

  class Process {
    /** `torch.get_default_dtype()`. */
    var defaultDtype: DType
    /** `torch.nn.Linear` and `torch.nn.LayerNorm`. */
    var bindings: Bindings
    /** The context managers currently suspended at their `yield`, innermost last. */
    var active: seq<Frame>

    function Snapshot(): State
      reads this
    {
      State(Globals(defaultDtype, bindings), active)
    }

    constructor (dtype: DType, bindings: Bindings)
      ensures Snapshot() == State(Globals(dtype, bindings), [])
    {
      this.defaultDtype := dtype;
      this.bindings := bindings;
      this.active := [];
    }

    /** `torch.set_default_dtype(dtype)`. */
    method SetDefaultDtype(dtype: DType)
      modifies this
      ensures Snapshot() == Step(old(Snapshot()), Act(SetDtype(dtype)))
    {
      defaultDtype := dtype;
    }

    /** `torch.nn.Linear = cls`. */
    method AssignLinear(cls: LayerClass)
      modifies this
      ensures Snapshot() == Step(old(Snapshot()), Act(SetLinear(cls)))
    {
      bindings := bindings.(linear := cls);
    }

    /** `torch.nn.LayerNorm = cls`. */
    method AssignLayerNorm(cls: LayerClass)
      modifies this
      ensures Snapshot() == Step(old(Snapshot()), Act(SetLayerNorm(cls)))
    {
      bindings := bindings.(layerNorm := cls);
    }

    /** A context manager's generator reaches its `yield` holding `frame`. */
    method Suspend(frame: Frame)
      modifies this
      ensures defaultDtype == old(defaultDtype) && bindings == old(bindings)
      ensures active == old(active) + [frame]
    {
      active := active + [frame];
    }

    /**
     * Normal exit of the innermost context: its generator runs the code after
     * `yield` (lines 110-114 for `init_context`, 126 for `forward_context`).
     */
    method ExitContext()
      requires active != []
      modifies this
      ensures Snapshot() == Step(old(Snapshot()), Exit)
      ensures defaultDtype == old(active[|active| - 1]).savedDtype
      ensures active == old(active[..|active| - 1])
    {
      var frame := active[|active| - 1];
      active := active[..|active| - 1];
      match frame {
        case InitFrame(savedDtype, savedBindings) =>
          if savedBindings.Some? {
            AssignLinear(savedBindings.value.linear);
            AssignLayerNorm(savedBindings.value.layerNorm);
          }
          SetDefaultDtype(savedDtype);
        case ForwardFrame(savedDtype) =>
          SetDefaultDtype(savedDtype);
      }
    }

    /** An exception propagates out of the innermost context; the code after `yield` does not run. */
    method RaiseInContext()
      requires active != []
      modifies this
      ensures Snapshot() == Step(old(Snapshot()), Raise)
      ensures defaultDtype == old(defaultDtype) && bindings == old(bindings)
    {
      active := active[..|active| - 1];
    }
  }
}
