/**
 * `_convert_layers`: the in-place pass that walks `named_children()` of a module,
 * swaps every qualifying `Linear` and every `LayerNorm` child for its Transformer
 * Engine equivalent, and recurses into every other child.
 *
 * `Rewritten` is the specification (a left-to-right fold over the children, as the
 * loop runs); `ConvertLayers` is the loop itself. `Target` is an order-free
 * reference for the result when nothing raises (every slot mapped at once), and
 * `Refines` says what any slot may hold once the pass has been over it, whether
 * or not it raised.
 */
module LayerConversion {
  import opened Wrappers
  import opened ModuleTree

  /** The exceptions the pass itself can raise. */
  datatype ConvertError =
      /** `normalized_shape[0]` of a layer norm whose `normalized_shape` is empty. */
    | IndexError
      /** `.data` of a layer norm `weight` or `bias` that is `None`. */
    | AttributeError

  /**
   * What a call leaves behind: the module as the in-place updates have left it, and
   * the exception that escaped, if any. Slots replaced before an exception stay replaced.
   */
  datatype Outcome<T> = Outcome(value: T, error: Option<ConvertError>)

  /** Transformer Engine's fp8 linear layers need `in_features % 8 == 0` and `out_features % 16 == 0`. */
  predicate LinearFits(inFeatures: nat, outFeatures: nat) {
    inFeatures % 8 == 0 && outFeatures % 16 == 0
  }

  /** A layer norm the pass can rebuild: it reads `normalized_shape[0]`, `weight.data` and `bias.data`. */
  predicate LayerNormReplaceable(shape: seq<nat>, weight: Option<Tensor>, bias: Option<Tensor>) {
    |shape| > 0 && weight.Some? && bias.Some?
  }

  /** `after` is the Transformer Engine layer the pass builds in place of `before`. */
  predicate TEEquivalent(before: Module, after: Module) {
    match before
    case Linear(i, o, w, b) => LinearFits(i, o) && after == TELinear(i, o, w, b)
    case LayerNorm(shape, eps, w, b) =>
      LayerNormReplaceable(shape, w, b) && after == TELayerNorm(shape[0], eps, w.value, b.value)
    case _ => false
  }

  // ---------------------------------------------------------------------------
  // The pass, as a function
  // ---------------------------------------------------------------------------

  /** `_convert_layers(m)`: only the children of `m` are visited; `m` itself is never replaced. */
  function Rewritten(m: Module): Outcome<Module>
    decreases m, 1
  {
    match m
    case Container(te, cs) =>
      var r := RewrittenSlots(cs);
      Outcome(Container(te, r.value), r.error)
    case _ => Outcome(m, None)
  }

  /** The loop over `named_children()`, from the first slot; an exception ends it with later slots untouched. */
  function RewrittenSlots(cs: seq<Child>): Outcome<seq<Child>>
    decreases cs
  {
    if cs == [] then Outcome([], None)
    else
      var head := RewrittenChild(cs[0].submodule);
      var slot := Child(cs[0].name, head.value);
      if head.error.Some? then Outcome([slot] + cs[1..], head.error)
      else
        var rest := RewrittenSlots(cs[1..]);
        Outcome([slot] + rest.value, rest.error)
  }

  /** One iteration of the loop: what the slot holding `c` holds afterwards. */
  function RewrittenChild(c: Module): Outcome<Module>
    decreases c, 2
  {
    match c
    case Linear(i, o, w, b) =>
      if LinearFits(i, o) then Outcome(TELinear(i, o, w, b), None) else Outcome(c, None)
    case LayerNorm(shape, eps, w, b) =>
      if |shape| == 0 then Outcome(c, Some(IndexError))
      else if w.None? || b.None? then Outcome(c, Some(AttributeError))
      else Outcome(TELayerNorm(shape[0], eps, w.value, b.value), None)
    case _ => Rewritten(c)
  }

  // ---------------------------------------------------------------------------
  // The pass, as the source runs it: a loop that reassigns slots one at a time
  // ---------------------------------------------------------------------------

  /**
   * `_convert_layers(m)`, with `module.__setattr__(name, replacement)` as the update of
   * slot `i`. Returns the module as left in place and the exception that escaped.
   */
  method ConvertLayers(m: Module) returns (r: Module, err: Option<ConvertError>)
    ensures Outcome(r, err) == Rewritten(m)
    decreases m, 0
  {
    if !m.Container? {
      return m, None;
    }
    var slots := m.children;
    var i := 0;
    assert m.children[0..] == m.children && slots[..0] == [];
    assert [] + RewrittenSlots(m.children).value == RewrittenSlots(m.children).value;
    while i < |slots|
      invariant 0 <= i <= |slots| == |m.children|
      invariant slots[i..] == m.children[i..]
      invariant RewrittenSlots(m.children) == AfterDone(slots[..i], RewrittenSlots(m.children[i..]))
    {
      assert slots[i] == m.children[i..][0] == m.children[i];
      var name := slots[i].name;
      var replacement, failed := ConvertChild(slots[i].submodule);
      LoopStep(m.children, slots[..i], i, replacement, failed);
      slots := slots[i := Child(name, replacement)];
      assert slots == slots[..i] + [Child(name, replacement)] + m.children[i + 1..];
      if failed.Some? {
        return Container(m.fromTE, slots), failed;
      }
      i := i + 1;
      assert slots[i..] == m.children[i..];
    }
    assert slots[..i] == slots && m.children[i..] == [];
    assert slots + [] == slots;
    return Container(m.fromTE, slots), None;
  }

  /** The slots the loop has finished, followed by what the rest of the loop does. */
  function AfterDone(done: seq<Child>, rest: Outcome<seq<Child>>): Outcome<seq<Child>> {
    Outcome(done + rest.value, rest.error)
  }

  /** One iteration of the loop keeps its invariant, or ends it with the exception the slot raised. */
  lemma LoopStep(cs: seq<Child>, done: seq<Child>, i: nat, x: Module, err: Option<ConvertError>)
    requires i < |cs| && |done| == i
    requires RewrittenSlots(cs) == AfterDone(done, RewrittenSlots(cs[i..]))
    requires RewrittenChild(cs[i].submodule) == Outcome(x, err)
    ensures err.Some? ==> RewrittenSlots(cs) == Outcome(done + [Child(cs[i].name, x)] + cs[i + 1..], err)
    ensures err.None? ==> RewrittenSlots(cs) == AfterDone(done + [Child(cs[i].name, x)], RewrittenSlots(cs[i + 1..]))
  {
    RewrittenSlotsAt(cs, i, x, err);
    if err.None? {
      AfterDoneAssoc(done, Child(cs[i].name, x), RewrittenSlots(cs[i + 1..]));
    } else {
      AfterDoneAssoc(done, Child(cs[i].name, x), Outcome(cs[i + 1..], err));
    }
  }

  lemma AfterDoneAssoc(done: seq<Child>, slot: Child, rest: Outcome<seq<Child>>)
    ensures AfterDone(done, AfterDone([slot], rest)) == AfterDone(done + [slot], rest)
    ensures AfterDone(done, AfterDone([slot], rest)).value == done + [slot] + rest.value
  {
    assert done + ([slot] + rest.value) == (done + [slot]) + rest.value;
  }

  /** `RewrittenSlots` from slot `i` on, unfolded once. */
  lemma RewrittenSlotsAt(cs: seq<Child>, i: nat, x: Module, err: Option<ConvertError>)
    requires i < |cs|
    requires RewrittenChild(cs[i].submodule) == Outcome(x, err)
    ensures err.Some? ==> RewrittenSlots(cs[i..]) == AfterDone([Child(cs[i].name, x)], Outcome(cs[i + 1..], err))
    ensures err.None? ==> RewrittenSlots(cs[i..]) == AfterDone([Child(cs[i].name, x)], RewrittenSlots(cs[i + 1..]))
  {
    var tail := cs[i..];
    assert tail != [] && tail[0] == cs[i] && tail[1..] == cs[i + 1..];
  }

  /** The body of the loop in `_convert_layers` for one child: replace it, skip it, or recurse into it. */
  method ConvertChild(child: Module) returns (replacement: Module, failed: Option<ConvertError>)
    ensures Outcome(replacement, failed) == RewrittenChild(child)
    decreases child, 1
  {
    replacement, failed := child, None;
    match child {
      case Linear(inF, outF, w, b) =>
        if inF % 8 != 0 || outF % 16 != 0 {
          // skipped with a warning; nothing beneath it is visited
        } else {
          replacement := TELinear(inF, outF, w, b);
        }
      case LayerNorm(shape, eps, w, b) =>
        if |shape| == 0 {
          failed := Some(IndexError);
        } else if w.None? || b.None? {
          failed := Some(AttributeError);
        } else {
          replacement := TELayerNorm(shape[0], eps, w.value, b.value);
        }
      case TELinear(_, _, _, _) =>
        replacement, failed := ConvertLayers(child);
      case TELayerNorm(_, _, _, _) =>
        replacement, failed := ConvertLayers(child);
      case Container(_, _) =>
        replacement, failed := ConvertLayers(child);
    }
  }

  // ---------------------------------------------------------------------------
  // Reference relations and predicates over the tree
  // ---------------------------------------------------------------------------

  /**
   * What the tree `before` may have become once the pass has been over it, whether
   * or not it raised: the root keeps its kind, every module keeps its children's
   * number, order and names, and a child slot changes only from a `Linear` or
   * `LayerNorm` to its Transformer Engine equivalent.
   */
  predicate Refines(before: Module, after: Module)
    decreases before, 0
  {
    match before
    case Container(te, cs) => after.Container? && after.fromTE == te && SlotsRefine(cs, after.children)
    case _ => after == before
  }

  predicate SlotsRefine(cs: seq<Child>, ds: seq<Child>)
    decreases cs
  {
    |ds| == |cs| &&
    forall i :: 0 <= i < |cs| ==> ds[i].name == cs[i].name && ChildRefines(cs[i].submodule, ds[i].submodule)
  }

  predicate ChildRefines(c: Module, d: Module)
    decreases c, 1
  {
    if c.Linear? || c.LayerNorm? then d == c || TEEquivalent(c, d) else Refines(c, d)
  }

  /** `P` holds of every module stored in a child slot, at any depth below `m`. */
  predicate EverySlot(m: Module, P: Module -> bool)
    decreases m, 0
  {
    m.Container? ==> AllSlots(m.children, P)
  }

  predicate AllSlots(cs: seq<Child>, P: Module -> bool)
    decreases cs
  {
    forall i :: 0 <= i < |cs| ==> P(cs[i].submodule) && EverySlot(cs[i].submodule, P)
  }

  /** A child the pass does not raise on: anything but a layer norm it cannot rebuild. */
  predicate ReadableLayerNorm(c: Module) {
    c.LayerNorm? ==> LayerNormReplaceable(c.normalizedShape, c.affineWeight, c.affineBias)
  }

  /** A child the pass leaves in its slot: anything but a fitting `Linear` or a `LayerNorm`. */
  predicate Settled(c: Module) {
    !(c.Linear? && LinearFits(c.inFeatures, c.outFeatures)) && !c.LayerNorm?
  }

  /** The tree with every slot at every depth replaced at once, as a completed pass leaves it. */
  function Target(m: Module): Module
    decreases m, 1
  {
    match m
    case Container(te, cs) => Container(te, TargetSlots(cs))
    case _ => m
  }

  function TargetSlots(cs: seq<Child>): seq<Child>
    decreases cs
  {
    seq(|cs|, i requires 0 <= i < |cs| => Child(cs[i].name, TargetChild(cs[i].submodule)))
  }

  function TargetChild(c: Module): Module
    decreases c, 2
  {
    match c
    case Linear(i, o, w, b) => if LinearFits(i, o) then TELinear(i, o, w, b) else c
    case LayerNorm(shape, eps, w, b) =>
      if LayerNormReplaceable(shape, w, b) then TELayerNorm(shape[0], eps, w.value, b.value) else c
    case _ => Target(c)
  }

  /** The layer norms in child slots at any depth below `m`, in the order the pass visits them. */
  function SlotLayerNorms(m: Module): seq<Module>
    decreases m, 1
  {
    if m.Container? then SlotsLayerNorms(m.children) else []
  }

  function SlotsLayerNorms(cs: seq<Child>): seq<Module>
    decreases cs
  {
    if cs == [] then [] else ChildLayerNorms(cs[0].submodule) + SlotsLayerNorms(cs[1..])
  }

  function ChildLayerNorms(c: Module): seq<Module>
    decreases c, 2
  {
    if c.LayerNorm? then [c] else SlotLayerNorms(c)
  }

  /** The first layer norm of `lns` that the pass cannot rebuild, if any. */
  function FirstUnreadable(lns: seq<Module>): (r: Option<Module>)
    ensures r.Some? ==> r.value in lns && r.value.LayerNorm? && !ReadableLayerNorm(r.value)
    ensures r.None? ==> forall i :: 0 <= i < |lns| && lns[i].LayerNorm? ==> ReadableLayerNorm(lns[i])
  {
    if lns == [] then None
    else if lns[0].LayerNorm? && !ReadableLayerNorm(lns[0]) then Some(lns[0])
    else FirstUnreadable(lns[1..])
  }

  /** The exception the pass ends with when `first` is the first unreadable layer norm it reaches. */
  function RaisedFor(first: Option<Module>): Option<ConvertError> {
    match first
    case None => None
    case Some(ln) => if ln.LayerNorm? && |ln.normalizedShape| == 0 then Some(IndexError) else Some(AttributeError)
  }

  /**
   * The slot at which a raising pass stopped: every earlier slot holds what one
   * iteration made of it without raising, slot `k` holds what the raising iteration
   * left there, and every later slot is untouched.
   */
  predicate StoppedAt(cs: seq<Child>, r: Outcome<seq<Child>>, k: int) {
    0 <= k < |cs| && |r.value| == |cs| &&
    r.error.Some? && RewrittenChild(cs[k].submodule).error == r.error &&
    r.value[k] == Child(cs[k].name, RewrittenChild(cs[k].submodule).value) &&
    (forall j :: 0 <= j < k ==>
       RewrittenChild(cs[j].submodule).error.None? &&
       r.value[j] == Child(cs[j].name, RewrittenChild(cs[j].submodule).value)) &&
    (forall j :: k < j < |cs| ==> r.value[j] == cs[j])
  }

  // ---------------------------------------------------------------------------
  // Lemmas
  // ---------------------------------------------------------------------------

  lemma {:induction false} RefinesReflexive(m: Module)
    ensures Refines(m, m) && ChildRefines(m, m)
    decreases m
  {
    if m.Container? {
      forall i | 0 <= i < |m.children|
        ensures ChildRefines(m.children[i].submodule, m.children[i].submodule)
      {
        RefinesReflexive(m.children[i].submodule);
      }
    }
  }

  /** The pass never replaces the root, never adds, drops, reorders or renames a child, and changes a slot only into its TE equivalent. */
  lemma {:induction false} RewrittenRefines(m: Module)
    ensures Refines(m, Rewritten(m).value)
    decreases m, 1
  {
    if m.Container? {
      RewrittenSlotsRefine(m.children);
    }
  }

  lemma {:induction false} RewrittenSlotsRefine(cs: seq<Child>)
    ensures SlotsRefine(cs, RewrittenSlots(cs).value)
    decreases cs
  {
    if cs != [] {
      var head := RewrittenChild(cs[0].submodule);
      RewrittenChildRefines(cs[0].submodule);
      var ds := RewrittenSlots(cs).value;
      if head.error.Some? {
        forall i | 1 <= i < |cs| ensures ds[i] == cs[i] && ChildRefines(cs[i].submodule, ds[i].submodule) {
          RefinesReflexive(cs[i].submodule);
        }
      } else {
        RewrittenSlotsRefine(cs[1..]);
        var rest := RewrittenSlots(cs[1..]).value;
        assert forall i :: 1 <= i < |cs| ==> ds[i] == rest[i - 1] && cs[i] == cs[1..][i - 1];
      }
    }
  }

  lemma {:induction false} RewrittenChildRefines(c: Module)
    ensures ChildRefines(c, RewrittenChild(c).value)
    decreases c, 2
  {
    if !(c.Linear? || c.LayerNorm?) {
      RewrittenRefines(c);
    }
  }

  lemma {:induction false} AllSlotsCons(cs: seq<Child>, P: Module -> bool)
    requires cs != []
    ensures AllSlots(cs, P) <==> P(cs[0].submodule) && EverySlot(cs[0].submodule, P) && AllSlots(cs[1..], P)
  {
    assert forall i :: 1 <= i < |cs| ==> cs[i] == cs[1..][i - 1];
    if P(cs[0].submodule) && EverySlot(cs[0].submodule, P) && AllSlots(cs[1..], P) {
      forall i | 0 <= i < |cs| ensures P(cs[i].submodule) && EverySlot(cs[i].submodule, P) {
        if i > 0 {
          assert cs[1..][i - 1] == cs[i];
        }
      }
    }
  }

  /** The pass raises exactly when some layer norm it reaches lacks a `normalized_shape[0]`, a weight or a bias. */
  lemma {:induction false} RewrittenRaisesIff(m: Module)
    ensures Rewritten(m).error.None? <==> EverySlot(m, ReadableLayerNorm)
    decreases m, 1
  {
    if m.Container? {
      RewrittenSlotsRaisesIff(m.children);
    }
  }

  lemma {:induction false} RewrittenSlotsRaisesIff(cs: seq<Child>)
    ensures RewrittenSlots(cs).error.None? <==> AllSlots(cs, ReadableLayerNorm)
    decreases cs
  {
    if cs != [] {
      var c := cs[0].submodule;
      if !(c.Linear? || c.LayerNorm?) {
        RewrittenRaisesIff(c);
      }
      RewrittenSlotsRaisesIff(cs[1..]);
      AllSlotsCons(cs, ReadableLayerNorm);
    }
  }

  /** When the pass completes, no fitting `Linear` and no `LayerNorm` is left in any slot below the root. */
  lemma {:induction false} RewrittenSettles(m: Module)
    requires Rewritten(m).error.None?
    ensures EverySlot(Rewritten(m).value, Settled)
    decreases m, 1
  {
    if m.Container? {
      RewrittenSlotsSettle(m.children);
    }
  }

  lemma {:induction false} RewrittenSlotsSettle(cs: seq<Child>)
    requires RewrittenSlots(cs).error.None?
    ensures AllSlots(RewrittenSlots(cs).value, Settled)
    decreases cs
  {
    if cs != [] {
      var c := cs[0].submodule;
      if !(c.Linear? || c.LayerNorm?) {
        RewrittenSettles(c);
      }
      RewrittenSlotsSettle(cs[1..]);
      var ds := RewrittenSlots(cs).value;
      assert ds[1..] == RewrittenSlots(cs[1..]).value;
      AllSlotsCons(ds, Settled);
    }
  }

  /** A pass that completes leaves exactly `Target`: every slot, at every depth, replaced at once. */
  lemma {:induction false} RewrittenIsTarget(m: Module)
    requires Rewritten(m).error.None?
    ensures Rewritten(m).value == Target(m)
    decreases m, 1
  {
    if m.Container? {
      RewrittenSlotsAreTarget(m.children);
    }
  }

  lemma {:induction false} RewrittenSlotsAreTarget(cs: seq<Child>)
    requires RewrittenSlots(cs).error.None?
    ensures RewrittenSlots(cs).value == TargetSlots(cs)
    decreases cs
  {
    if cs != [] {
      var c := cs[0].submodule;
      assert RewrittenChild(c).error.None?;
      if !(c.Linear? || c.LayerNorm?) {
        RewrittenIsTarget(c);
      }
      assert RewrittenChild(c).value == TargetChild(c);
      RewrittenSlotsAreTarget(cs[1..]);
      var ds := RewrittenSlots(cs).value;
      var ts := TargetSlots(cs);
      assert ds[1..] == RewrittenSlots(cs[1..]).value;
      assert ts[1..] == TargetSlots(cs[1..]);
      assert ds[0] == ts[0];
      assert ds == [ds[0]] + ds[1..] && ts == [ts[0]] + ts[1..];
    }
  }

  /** A pass that raises stopped at one slot: the slots before it converted, the slots after it untouched. */
  lemma {:induction false} RaisingPassStops(m: Module)
    requires Rewritten(m).error.Some?
    ensures m.Container? && Rewritten(m).value.Container? && Rewritten(m).value.fromTE == m.fromTE
    ensures exists k :: StoppedAt(m.children, Outcome(Rewritten(m).value.children, Rewritten(m).error), k)
  {
    RaisingSlotsStop(m.children);
  }

  lemma {:induction false} RaisingSlotsStop(cs: seq<Child>)
    requires RewrittenSlots(cs).error.Some?
    ensures exists k :: StoppedAt(cs, RewrittenSlots(cs), k)
    decreases cs
  {
    var r := RewrittenSlots(cs);
    var head := RewrittenChild(cs[0].submodule);
    if head.error.Some? {
      assert StoppedAt(cs, r, 0);
    } else {
      RaisingSlotsStop(cs[1..]);
      var rest := RewrittenSlots(cs[1..]);
      var k :| StoppedAt(cs[1..], rest, k);
      assert r.value[1..] == rest.value;
      assert forall j :: 1 <= j < |cs| ==> r.value[j] == rest.value[j - 1] && cs[j] == cs[1..][j - 1];
      assert StoppedAt(cs, r, k + 1);
    }
  }

  lemma {:induction false} FirstUnreadableAppend(a: seq<Module>, b: seq<Module>)
    ensures FirstUnreadable(a + b) == if FirstUnreadable(a).Some? then FirstUnreadable(a) else FirstUnreadable(b)
    decreases |a|
  {
    if a == [] {
      assert a + b == b;
    } else {
      assert (a + b)[0] == a[0] && (a + b)[1..] == a[1..] + b;
      FirstUnreadableAppend(a[1..], b);
    }
  }

  /**
   * The exception a pass ends with is decided by the first unreadable layer norm in
   * visiting order: `IndexError` exactly when its `normalized_shape` is empty,
   * `AttributeError` exactly when it has a shape but no weight or no bias, and none
   * when every layer norm is readable.
   */
  lemma {:induction false} PassRaisesAtFirstUnreadable(m: Module)
    ensures var f := FirstUnreadable(SlotLayerNorms(m));
            (Rewritten(m).error.None? <==> f.None?) &&
            (Rewritten(m).error == Some(IndexError) <==> f.Some? && |f.value.normalizedShape| == 0) &&
            (Rewritten(m).error == Some(AttributeError) <==>
               f.Some? && |f.value.normalizedShape| > 0 && (f.value.affineWeight.None? || f.value.affineBias.None?))
  {
    RewrittenRaisesFirst(m);
  }

  lemma {:induction false} RewrittenRaisesFirst(m: Module)
    ensures Rewritten(m).error == RaisedFor(FirstUnreadable(SlotLayerNorms(m)))
    decreases m, 1
  {
    if m.Container? {
      SlotsRaiseFirst(m.children);
    }
  }

  lemma {:induction false} SlotsRaiseFirst(cs: seq<Child>)
    ensures RewrittenSlots(cs).error == RaisedFor(FirstUnreadable(SlotsLayerNorms(cs)))
    decreases cs
  {
    if cs != [] {
      var c := cs[0].submodule;
      if c.LayerNorm? {
        assert [c][1..] == [];
      } else if !c.Linear? {
        RewrittenRaisesFirst(c);
      }
      assert RewrittenChild(c).error == RaisedFor(FirstUnreadable(ChildLayerNorms(c)));
      FirstUnreadableAppend(ChildLayerNorms(c), SlotsLayerNorms(cs[1..]));
      if RewrittenChild(c).error.None? {
        SlotsRaiseFirst(cs[1..]);
      }
    }
  }

  /** Running the pass on what it left behind changes nothing and raises the same way. */
  lemma {:induction false} RewrittenIdempotent(m: Module)
    ensures Rewritten(Rewritten(m).value) == Rewritten(m)
    decreases m, 1
  {
    if m.Container? {
      RewrittenSlotsIdempotent(m.children);
    }
  }

  lemma {:induction false} RewrittenSlotsIdempotent(cs: seq<Child>)
    ensures RewrittenSlots(RewrittenSlots(cs).value) == RewrittenSlots(cs)
    decreases cs
  {
    if cs != [] {
      var c := cs[0].submodule;
      var head := RewrittenChild(c);
      RewrittenChildIdempotent(c);
      var r := RewrittenSlots(cs);
      assert r.value[0] == Child(cs[0].name, head.value);
      if head.error.Some? {
        assert r.value[1..] == cs[1..];
      } else {
        RewrittenSlotsIdempotent(cs[1..]);
        assert r.value[1..] == RewrittenSlots(cs[1..]).value;
      }
    }
  }

  lemma {:induction false} RewrittenChildIdempotent(c: Module)
    ensures RewrittenChild(RewrittenChild(c).value) == RewrittenChild(c)
    decreases c, 2
  {
    if !(c.Linear? || c.LayerNorm?) {
      RewrittenIdempotent(c);
    }
  }

  /** If the pass changed anything, the tree it leaves holds a Transformer Engine module. */
  lemma {:induction false} ReplacementLeavesMark(m: Module)
    ensures Rewritten(m).value == m || AnyFromTE(Rewritten(m).value)
    decreases m, 1
  {
    if m.Container? {
      SlotsReplacementLeaveMark(m.children);
      var ds := RewrittenSlots(m.children).value;
      if ds != m.children {
        var i :| 0 <= i < |ds| && AnyFromTE(ds[i].submodule);
        assert Rewritten(m).value.children[i].submodule == ds[i].submodule;
      }
    }
  }

  lemma {:induction false} SlotsReplacementLeaveMark(cs: seq<Child>)
    ensures RewrittenSlots(cs).value == cs ||
            exists i :: 0 <= i < |RewrittenSlots(cs).value| && AnyFromTE(RewrittenSlots(cs).value[i].submodule)
    decreases cs
  {
    if cs != [] {
      var c := cs[0].submodule;
      var head := RewrittenChild(c);
      if !(c.Linear? || c.LayerNorm?) {
        ReplacementLeavesMark(c);
      }
      var ds := RewrittenSlots(cs).value;
      assert ds[0].submodule == head.value;
      if head.value != c {
        assert AnyFromTE(ds[0].submodule);
      } else if head.error.Some? {
        assert ds == cs;
      } else {
        SlotsReplacementLeaveMark(cs[1..]);
        var rest := RewrittenSlots(cs[1..]).value;
        if rest == cs[1..] {
          assert ds == cs;
        } else {
          var j :| 0 <= j < |rest| && AnyFromTE(rest[j].submodule);
          assert ds[j + 1] == rest[j];
        }
      }
    }
  }

  // ---------------------------------------------------------------------------
  // What happens to one child slot
  // ---------------------------------------------------------------------------

  /** A `Linear` child that misses either divisibility condition stays in its slot exactly as it was. */
  lemma SkippedLinearKept(m: Module, k: nat)
    requires m.Container? && k < |m.children|
    requires var c := m.children[k].submodule; c.Linear? && !LinearFits(c.inFeatures, c.outFeatures)
    ensures Rewritten(m).value.Container? && |Rewritten(m).value.children| == |m.children|
    ensures Rewritten(m).value.children[k] == m.children[k]
  {
    RewrittenRefines(m);
    var r := Rewritten(m).value;
    assert SlotsRefine(m.children, r.children);
    assert ChildRefines(m.children[k].submodule, r.children[k].submodule);
  }

  /**
   * When the pass completes, a `Linear` child meeting both conditions has been replaced,
   * under the same name, by a TE `Linear` with the same features, the same weight data and
   * the same bias data, present exactly when the original had one.
   */
  lemma FittingLinearReplaced(m: Module, k: nat)
    requires m.Container? && k < |m.children|
    requires Rewritten(m).error.None?
    requires var c := m.children[k].submodule; c.Linear? && LinearFits(c.inFeatures, c.outFeatures)
    ensures var c := m.children[k].submodule;
            Rewritten(m).value.Container? && |Rewritten(m).value.children| == |m.children| &&
            Rewritten(m).value.children[k] ==
              Child(m.children[k].name, TELinear(c.inFeatures, c.outFeatures, c.weight, c.bias))
  {
    RewrittenRefines(m);
    RewrittenSettles(m);
    var r := Rewritten(m).value;
    assert SlotsRefine(m.children, r.children);
    assert ChildRefines(m.children[k].submodule, r.children[k].submodule);
    assert AllSlots(r.children, Settled);
    assert Settled(r.children[k].submodule);
  }

  /**
   * When the pass completes, every `LayerNorm` child had a non-empty `normalized_shape`,
   * a weight and a bias, and has been replaced, under the same name, by a TE `LayerNorm`
   * of hidden size `normalized_shape[0]` with the same `eps`, weight and bias.
   */
  lemma LayerNormReplaced(m: Module, k: nat)
    requires m.Container? && k < |m.children|
    requires Rewritten(m).error.None?
    requires m.children[k].submodule.LayerNorm?
    ensures var c := m.children[k].submodule;
            LayerNormReplaceable(c.normalizedShape, c.affineWeight, c.affineBias) &&
            Rewritten(m).value.Container? && |Rewritten(m).value.children| == |m.children| &&
            Rewritten(m).value.children[k] ==
              Child(m.children[k].name,
                    TELayerNorm(c.normalizedShape[0], c.eps, c.affineWeight.value, c.affineBias.value))
  {
    RewrittenRefines(m);
    RewrittenSettles(m);
    RewrittenRaisesIff(m);
    var r := Rewritten(m).value;
    assert SlotsRefine(m.children, r.children);
    assert ChildRefines(m.children[k].submodule, r.children[k].submodule);
    assert AllSlots(r.children, Settled);
    assert Settled(r.children[k].submodule);
    assert AllSlots(m.children, ReadableLayerNorm);
    assert ReadableLayerNorm(m.children[k].submodule);
  }

  /** A `LayerNorm` child with an empty `normalized_shape`, or without weight or bias, makes the pass raise. */
  lemma UnreadableLayerNormRaises(m: Module, k: nat)
    requires m.Container? && k < |m.children|
    requires var c := m.children[k].submodule;
             c.LayerNorm? && !LayerNormReplaceable(c.normalizedShape, c.affineWeight, c.affineBias)
    ensures Rewritten(m).error.Some?
  {
    RewrittenRaisesIff(m);
  }
}
