# Transformer Engine precision plugin: a Dafny model

This project models the orchestration in Lightning Fabric's `TransformerEnginePrecision` plugin
(`src/lightning/fabric/plugins/precision/transformer_engine.py`). The plugin switches a model to
NVIDIA Transformer Engine (TE) layers for fp8 training, and it sets process-wide torch defaults
around initialisation and the forward pass. The fp8 numerics belong to TE and PyTorch. They are
not modelled here.

The model has four parts:

- `ModuleTree` (`module_tree.dfy`) is the module tree. Each node is a `Linear`, a `LayerNorm`,
  a TE `Linear`, a TE `LayerNorm`, or any other module (`Container`) with named children.
  A `Container` is flagged when its class comes from the `transformer_engine` package.
  Weights, biases and `eps` are opaque values that are only copied.
- `LayerConversion` (`convert_layers.dfy`) is `_convert_layers`.
  - `Rewritten` is its specification: a left-to-right fold over `named_children()`.
  - `ConvertLayers` / `ConvertChild` is the loop itself. It reassigns one slot at a time and
    recurses into other children. It is proved equal to `Rewritten`.
  - The exceptions the pass raises are modelled. A layer norm with an empty `normalized_shape`
    raises `IndexError`. A layer norm without weight or bias raises `AttributeError`.
  - When the pass raises, the result is the partly converted tree it leaves in place.
  - Lemmas relate the pass to four independent descriptions: `Refines` (what any slot may hold
    afterwards), `ReadableLayerNorm` (when it raises), `Settled` (what is left once it completes)
    and `Target` (the whole result of a completed pass, every slot mapped at once).
  - `StoppedAt` describes a pass that raised: the slot where it stopped, the converted slots
    before it and the untouched slots after it.
- `ProcessState` (`process_state.dfy`) is the process-wide state that the two context managers
  save and restore: torch's default dtype and the bindings of `torch.nn.Linear` and
  `torch.nn.LayerNorm`.
  - The active context managers form a stack of frames. Each frame holds the locals its generator
    saved before `yield`.
  - `Step` and `Run` specify events: enter, normal exit, exit by exception, and body code that
    changes the same globals. The `Process` class's methods are proved against `Step`.
- `TransformerEngine` (`precision.dfy`) is the plugin class. It covers the constructor's
  defaulting of `dtype` and `recipe`, the guard in `convert_module`, and the entry halves of
  `init_context` and `forward_context`.

## Model

| member | source | states |
|---|---|---|
| `LayerConversion.ConvertLayers` | src/lightning/fabric/plugins/precision/transformer_engine.py:135-164 | The loop over `named_children()` with in-place slot assignment returns exactly the tree and exception that the fold specification `Rewritten` describes. |
| `LayerConversion.ConvertChild` | src/lightning/fabric/plugins/precision/transformer_engine.py:139-164 | One loop iteration does one of three things to a child: swap it for its TE equivalent, leave it (a non-fitting `Linear`), or recurse into it. It raises on an unreadable layer norm. |
| `LayerConversion.LoopStep` | src/lightning/fabric/plugins/precision/transformer_engine.py:138-160 | Each iteration keeps the loop's invariant. The slots already done, followed by the rest of the pass, give the whole pass. If the slot raises, the later slots stay untouched. |
| `LayerConversion.RewrittenRefines` | src/lightning/fabric/plugins/precision/transformer_engine.py:138-164 | Whether or not the pass raises: the root is never replaced; no child is added, removed, reordered or renamed; other modules keep their kind and are recursed into; a slot changes only from `Linear`/`LayerNorm` to its TE equivalent. |
| `LayerConversion.SkippedLinearKept` | src/lightning/fabric/plugins/precision/transformer_engine.py:139-147 | A `Linear` child with `in_features % 8 != 0` or `out_features % 16 != 0` stays in its slot unchanged. |
| `LayerConversion.FittingLinearReplaced` | src/lightning/fabric/plugins/precision/transformer_engine.py:148-154 | When the pass completes, a fitting `Linear` child has been replaced under the same name. The TE `Linear` has the same `in_features` and `out_features` and a copy of the weight. It has a bias exactly when the original had one, and that bias is a copy. |
| `LayerConversion.LayerNormReplaced` | src/lightning/fabric/plugins/precision/transformer_engine.py:155-160 | When the pass completes, a `LayerNorm` child had a non-empty shape, a weight and a bias. It has been replaced under the same name by a TE `LayerNorm` with hidden size `normalized_shape[0]`, the same `eps`, and copies of the weight and bias. |
| `LayerConversion.UnreadableLayerNormRaises` | src/lightning/fabric/plugins/precision/transformer_engine.py:156-158 | A `LayerNorm` child with an empty `normalized_shape`, or without weight or bias, makes the pass raise. |
| `LayerConversion.RewrittenRaisesIff` | src/lightning/fabric/plugins/precision/transformer_engine.py:155-160 | Among the exceptions the pass itself raises, the pass completes without one if and only if every layer norm in a child slot, at any depth, has `normalized_shape[0]`, a weight and a bias. |
| `LayerConversion.RewrittenSettles` | src/lightning/fabric/plugins/precision/transformer_engine.py:138-164 | After a pass that completes, no slot at any depth below the root holds a fitting `Linear` or a `LayerNorm`. |
| `LayerConversion.RewrittenIsTarget` | src/lightning/fabric/plugins/precision/transformer_engine.py:138-164 | A pass that completes leaves exactly `Target`: at every depth, each fitting `Linear` and each `LayerNorm` becomes its TE equivalent, and every other slot is recursed into, whatever order the slots are visited in. |
| `LayerConversion.RaisingPassStops` | src/lightning/fabric/plugins/precision/transformer_engine.py:138-164 | A pass that raises stopped at one child slot. Every earlier slot holds what its iteration made of it, without raising. The stopping slot raised the pass's exception and holds what that iteration left there. Every later slot is untouched. |
| `LayerConversion.PassRaisesAtFirstUnreadable` | src/lightning/fabric/plugins/precision/transformer_engine.py:138-160 | The pass's exception is decided by the first unreadable layer norm in the order the loop visits slots, depth first. It is `IndexError` exactly when that layer norm's `normalized_shape` is empty. It is `AttributeError` exactly when the layer norm has a shape but no weight or no bias. There is no exception exactly when there is no such layer norm. |
| `LayerConversion.RewrittenIdempotent` | src/lightning/fabric/plugins/precision/transformer_engine.py:135-164 | Running the pass again on the tree it left gives the same tree and the same exception. |
| `LayerConversion.ReplacementLeavesMark` | src/lightning/fabric/plugins/precision/transformer_engine.py:148-160 | If the pass changed the tree at all, the tree it left holds a module from `transformer_engine`. |
| `TransformerEngine.TransformerEnginePrecision.ConvertModule` | src/lightning/fabric/plugins/precision/transformer_engine.py:87-92 | With `replace_layers` falsy, or with any module of the tree already from `transformer_engine`, nothing is replaced. Otherwise the result is exactly the layer pass. |
| `TransformerEngine.ConvertModuleIdempotent` | src/lightning/fabric/plugins/precision/transformer_engine.py:88-90 | A second `convert_module` on the result makes no structural change. If the first call replaced anything, the guard now sees a TE module. |
| `TransformerEngine.RecipeFromMapping` | src/lightning/fabric/plugins/precision/transformer_engine.py:73-79 | A mapping recipe keeps all its keys and values, except that a string `fp8_format` becomes the `Format` member of that name. A non-string `fp8_format` raises. |
| `TransformerEngine.TransformerEnginePrecision.Create` | src/lightning/fabric/plugins/precision/transformer_engine.py:71-85 | A `None` dtype becomes the current default dtype. A `None` recipe becomes `DelayedScaling()`. A recipe object is kept. A mapping recipe is copied and then normalised, and the caller's mapping is left unchanged. `replace_layers` is stored as given. |
| `TransformerEngine.TransformerEnginePrecision.constructor` | src/lightning/fabric/plugins/precision/transformer_engine.py:83-85 | The three fields are stored as given. |
| `TransformerEngine.TransformerEnginePrecision.EnterInitContext` | src/lightning/fabric/plugins/precision/transformer_engine.py:98-108 | On entry the default dtype becomes `self.dtype`. With `replace_layers`, the layer names are bound to TE's classes. The previous dtype, and the previous bindings when they were replaced, are saved in a new innermost frame. |
| `TransformerEngine.TransformerEnginePrecision.EnterForwardContext` | src/lightning/fabric/plugins/precision/transformer_engine.py:118-124 | On entry the default dtype becomes `self.dtype`, the bindings are untouched, and the previous dtype is saved in a new innermost frame. |
| `ProcessState.Process.ExitContext` | src/lightning/fabric/plugins/precision/transformer_engine.py:110-114 | Normal exit pops the innermost frame and restores its saved dtype, and its saved bindings if it has any (line 126 does the same for `forward_context`). |
| `ProcessState.Process.RaiseInContext` | src/lightning/fabric/plugins/precision/transformer_engine.py:108-114 | An exception leaving the innermost context pops its frame and restores nothing, because no `try`/`finally` surrounds the `yield`. |
| `ProcessState.WithRestores` | src/lightning/fabric/plugins/precision/transformer_engine.py:98-114 | Whatever the body did, a context left normally restores the default dtype found on entry. This includes nested contexts that the body leaves by an exception it then catches. `init_context` with `replace_layers` also restores the bindings. Otherwise the bindings stay as the body left them. |
| `ProcessState.BlocksKeepActive` | src/lightning/fabric/plugins/precision/transformer_engine.py:94-126 | Properly nested `with` blocks leave the stack of active contexts as they found it (LIFO). This holds whether a block exits normally or by an exception the enclosing code catches. |
| `ProcessState.NestedContextsRestore` | src/lightning/fabric/plugins/precision/transformer_engine.py:94-126 | Any nesting of the two contexts that all exit normally, with bodies that do not set the globals themselves, leaves dtype and bindings exactly as found. |
| `ProcessState.InsideContext` | src/lightning/fabric/plugins/precision/transformer_engine.py:98-106 | Inside a context whose body does not set the globals itself, even after nested contexts have come and gone by exiting normally, the default dtype is `self.dtype`. Under `init_context` with `replace_layers`, the layer names are bound to TE's classes; otherwise the bindings are the ones found on entry. |
| `ProcessState.RaiseLeaksGlobals` | src/lightning/fabric/plugins/precision/transformer_engine.py:108-126 | A context left by an exception, whose body holds only nested contexts that exit normally and set nothing themselves, leaves the default dtype at `self.dtype`. Replaced layer bindings stay replaced. The frame is still popped. |
| `ProcessState.WithRaisingLeaves` | src/lightning/fabric/plugins/precision/transformer_engine.py:98-126 | For any body, a context left by an exception restores nothing: the globals are exactly as the body left them, and only the context's frame is popped. So an inner `forward_context` left by an exception inside an outer one leaves the inner dtype, because line 126 is skipped in both. |
| `ProcessState.CaughtInsideRestores` | src/lightning/fabric/plugins/precision/transformer_engine.py:98-126 | An outer context still restores, on its normal exit, the dtype it found and the stack of active contexts. This holds when a nested context inside it was left by an exception the outer body caught. `init_context` with `replace_layers` also restores the bindings. |

## Left out

- Tensor dtype casting is not modelled: `module.to(dtype=self.dtype)` in `convert_module`, and `convert_input` / `convert_output` through `apply_to_collection`. `ConvertModule` returns the tree before the cast.
- `te.fp8_autocast` in `forward_context` is not modelled. It is TE's own context manager, so the recipe is only stored.
- The construction of `DelayedScaling` and `Format` is not modelled. Whether a string names a member of TE's `Format` enumeration is not checked (unknown names raise `AttributeError` inside TE). Keyword arguments that `DelayedScaling` rejects are not modelled either.
- The `RequirementCache` availability check and the `ModuleNotFoundError` in `__init__` are import plumbing, so they are left out.
- A failing `import transformer_engine.pytorch` inside a context is not modelled. In `init_context` it happens at line 96, before anything changes.
- `EnterForwardContext`: does not model a failure after the dtype is set. In `forward_context`, the import at line 121 and the entry of `te.fp8_autocast(...)` at line 123 run after `torch.set_default_dtype(self.dtype)` at line 119. If either raises, the default dtype stays changed and no frame exists to restore it.
- Logging is left out: the `rank_zero_warn` for skipped `Linear` layers and the `log.debug` for replacements.
- `torch.set_default_dtype` rejecting a non-floating dtype is PyTorch's behaviour and is not modelled.
- The `__module__` string test is abstracted. A generic module (`Container`) has a boolean saying whether its class comes from `transformer_engine`. For the four layer kinds it is fixed: the TE `Linear` and `LayerNorm` come from `transformer_engine`, and torch's `Linear` and `LayerNorm` do not.
- Object identity is not modelled, because the tree is a value.
  - A module shared between two parents is converted separately under each.
  - `named_children()` yields a module registered under two names only once; the model treats both slots as separate.
- `ConvertLayers`: does not model failures of the foreign calls inside the pass. These are `import transformer_engine.pytorch` at line 136, which every recursive call runs, and the TE constructors `te.Linear(...)` at line 149 and `te.LayerNorm(...)` at line 156, which may fail, for instance when allocating parameters on an unavailable device. Such a failure would stop the pass as `StoppedAt` describes: earlier slots converted, later slots untouched. `RewrittenRaisesIff` and `PassRaisesAtFirstUnreadable` speak only of the exceptions the pass itself raises.
- `ConvertLayers`: assumes `torch.nn.Linear` and `torch.nn.LayerNorm` have their usual bindings. Calling `convert_module` inside `init_context` with `replace_layers` would make the `isinstance` tests match TE's classes; that case is not modelled.
- `ConvertLayers`: subclasses of `Linear` or `LayerNorm` that have children of their own are not modelled. `Linear` and `LayerNorm` nodes are leaves here.
- The class attribute `precision = "transformer-engine"` only names the plugin, so it is left out.
