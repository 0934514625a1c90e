/**
 * The tree of `torch.nn.Module`s that the plugin converts: every module has an
 * ordered list of named children (`named_children()`), and the pass cares about
 * five kinds of node.
 */
module ModuleTree {
  import opened Wrappers

  /** The data of a weight or bias tensor; the pass clones it and never looks inside. */
  type Tensor(==)

  /** The floating-point `eps` of a layer norm; copied into the replacement as it is. */
  type Eps(==)

  datatype Module =
      /** `torch.nn.Linear`; `bias` is `None` when the layer was built with `bias=False`. */
    | Linear(inFeatures: nat, outFeatures: nat, weight: Tensor, bias: Option<Tensor>)
      /** `torch.nn.LayerNorm`; `affineWeight` and `affineBias` are `None` without elementwise affine parameters. */
    | LayerNorm(normalizedShape: seq<nat>, eps: Eps, affineWeight: Option<Tensor>, affineBias: Option<Tensor>)
      /** `transformer_engine.pytorch.Linear`. */
    | TELinear(inFeatures: nat, outFeatures: nat, weight: Tensor, bias: Option<Tensor>)
      /** `transformer_engine.pytorch.LayerNorm`, built from a hidden size and `eps`. */
    | TELayerNorm(hiddenSize: nat, eps: Eps, normWeight: Tensor, normBias: Tensor)
      /** Any other module; `fromTE` says whether its class is defined under `transformer_engine`. */
    | Container(fromTE: bool, children: seq<Child>)

  /** One entry of `named_children()`: the attribute name and the module stored under it. */
  datatype Child = Child(name: string, submodule: Module)

  /** `"transformer_engine" in type(m).__module__`, for one module. */
  predicate FromTE(m: Module) {
    m.TELinear? || m.TELayerNorm? || (m.Container? && m.fromTE)
  }

  /** `any(... for m in module.modules())`: some module of the tree, the root included, comes from Transformer Engine. */
  predicate AnyFromTE(m: Module)
    decreases m
  {
    FromTE(m) || (m.Container? && exists i :: 0 <= i < |m.children| && AnyFromTE(m.children[i].submodule))
  }

}
