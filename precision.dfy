/**
 * `TransformerEnginePrecision`: the plugin's constructor defaults, the guard in
 * `convert_module`, and the entry halves of `init_context` and `forward_context`
 * (their exits are `Process.ExitContext` and `Process.RaiseInContext`).
 */
module TransformerEngine {
  import opened Wrappers
  import opened ModuleTree
  import opened LayerConversion
  import opened ProcessState

  /** A value stored in a recipe mapping. */
  datatype Value =
    | Str(s: string)
      /** `getattr(Format, name)`: the member of Transformer Engine's `Format` enumeration called `name`. */
    | FormatMember(name: string)
    | Opaque(id: nat)

  /** A `DelayedScaling` recipe, known by the keyword arguments it was built from. */
  datatype Recipe = DelayedScaling(kwargs: map<string, Value>)

  /** A caller-owned mapping (`Mapping[str, Any]`), which the plugin must not mutate. */
  class Mapping {
    var entries: map<string, Value>

    constructor (entries: map<string, Value>)
      ensures this.entries == entries
    {
      this.entries := entries;
    }

    /** `mapping[key] = value`. */
    method Put(key: string, value: Value)
      modifies this
      ensures entries == old(entries)[key := value]
    {
      entries := entries[key := value];
    }
  }

  /** The `recipe` argument: `None`, a mapping, or an already built recipe. */
  datatype RecipeArg = NoRecipe | MappingRecipe(mapping: Mapping) | RecipeObject(recipe: Recipe)

  /** `getattr(Format, recipe["fp8_format"])` with a value that is not a string raises `TypeError`. */
  datatype InitError = FormatNameNotString

  /** Python truthiness of `replace_layers: Optional[bool]`. */
  predicate Truthy(flag: Option<bool>) {
    flag == Some(true)
  }

  /** The kwargs `DelayedScaling(**recipe)` receives for a mapping recipe (lines 74-79). */
  function RecipeFromMapping(entries: map<string, Value>): (r: Result<Recipe, InitError>)
    ensures r.Success? <==> ("fp8_format" !in entries || entries["fp8_format"].Str?)
    ensures r.Success? ==> r.value.kwargs.Keys == entries.Keys
    ensures r.Success? ==> forall k :: k in entries && k != "fp8_format" ==> r.value.kwargs[k] == entries[k]
    ensures r.Success? && "fp8_format" in entries ==>
              r.value.kwargs["fp8_format"] == FormatMember(entries["fp8_format"].s)
  {
    if "fp8_format" !in entries then Success(DelayedScaling(entries))
    else
      match entries["fp8_format"]
      case Str(name) => Success(DelayedScaling(entries["fp8_format" := FormatMember(name)]))
      case _ => Failure(FormatNameNotString)
  }

  /** `convert_module` minus the dtype cast: rewrite only when asked to and when no module comes from Transformer Engine. */
  function GuardedConversion(replaceLayers: Option<bool>, m: Module): Outcome<Module> {
    if Truthy(replaceLayers) && !AnyFromTE(m) then Rewritten(m) else Outcome(m, None)
  }

  /**
   * A second `convert_module` makes no structural change: if the first replaced
   * anything, the tree now holds a Transformer Engine module and the guard stops
   * the rewrite; if it replaced nothing, the rewrite does nothing again.
   */
  lemma {:induction false} ConvertModuleIdempotent(replaceLayers: Option<bool>, m: Module)
    ensures var once := GuardedConversion(replaceLayers, m).value;
            (once != m ==> AnyFromTE(once)) &&
            GuardedConversion(replaceLayers, once).value == once
  {
    ReplacementLeavesMark(m);
    var once := GuardedConversion(replaceLayers, m).value;
    if once == m {
      if Truthy(replaceLayers) && !AnyFromTE(m) {
        RewrittenIdempotent(m);
      }
    }
  }

  class TransformerEnginePrecision {
    var dtype: DType
    var recipe: Recipe
    var replaceLayers: Option<bool>

    /** Lines 83-85: the fields, once defaulted. */
    constructor (dtype: DType, recipe: Recipe, replaceLayers: Option<bool>)
      ensures this.dtype == dtype && this.recipe == recipe && this.replaceLayers == replaceLayers
    {
      this.dtype := dtype;
      this.recipe := recipe;
      this.replaceLayers := replaceLayers;
    }

    /**
     * `TransformerEnginePrecision(dtype, recipe, replace_layers)`: a missing dtype becomes
     * the current default dtype, a missing recipe a default `DelayedScaling()`, and a
     * mapping recipe is copied before its `fp8_format` is looked up, so the caller's
     * mapping is left as it was.
     */
    static method Create(dtype: Option<DType>, recipe: RecipeArg, replaceLayers: Option<bool>, proc: Process)
      returns (r: Result<TransformerEnginePrecision, InitError>)
      ensures recipe.MappingRecipe? ==> unchanged(recipe.mapping)
      ensures r.Failure? <==> recipe.MappingRecipe? && RecipeFromMapping(recipe.mapping.entries).Failure?
      ensures r.Success? ==> fresh(r.value)
      ensures r.Success? ==> r.value.dtype == dtype.GetOr(proc.defaultDtype)
      ensures r.Success? ==> r.value.replaceLayers == replaceLayers
      ensures r.Success? && recipe.NoRecipe? ==> r.value.recipe == DelayedScaling(map[])
      ensures r.Success? && recipe.RecipeObject? ==> r.value.recipe == recipe.recipe
      ensures r.Success? && recipe.MappingRecipe? ==>
                r.value.recipe == RecipeFromMapping(recipe.mapping.entries).value
    {
      var built: Recipe;
      match recipe {
        case NoRecipe =>
          built := DelayedScaling(map[]);
        case MappingRecipe(mapping) =>
          var copy := new Mapping(mapping.entries);
          if "fp8_format" in copy.entries {
            var name := copy.entries["fp8_format"];
            if !name.Str? {
              return Failure(FormatNameNotString);
            }
            copy.Put("fp8_format", FormatMember(name.s));
          }
          built := DelayedScaling(copy.entries);
        case RecipeObject(given) =>
          built := given;
      }
      var d := if dtype.Some? then dtype.value else proc.defaultDtype;
      var p := new TransformerEnginePrecision(d, built, replaceLayers);
      return Success(p);
    }

    /**
     * `convert_module(module)`, without the final `module.to(dtype=self.dtype)`: the
     * module as the layer rewrite left it, and the exception that escaped, if any.
     */
    method ConvertModule(m: Module) returns (r: Module, err: Option<ConvertError>)
      ensures !Truthy(replaceLayers) || AnyFromTE(m) ==> r == m && err.None?
      ensures Truthy(replaceLayers) && !AnyFromTE(m) ==> Outcome(r, err) == Rewritten(m)
      ensures Outcome(r, err) == GuardedConversion(replaceLayers, m)
    {
      r, err := m, None;
      if Truthy(replaceLayers) && !AnyFromTE(m) {
        r, err := ConvertLayers(m);
      }
    }

    /** Entering `init_context()` (lines 98-108): save, then set, the default dtype and, when replacing layers, the layer bindings. */
    method EnterInitContext(proc: Process)
      modifies proc
      ensures proc.Snapshot() == Step(old(proc.Snapshot()), Enter(InitContext(dtype, Truthy(replaceLayers))))
      ensures proc.defaultDtype == dtype
      ensures Truthy(replaceLayers) ==> proc.bindings == TEBindings
      ensures !Truthy(replaceLayers) ==> proc.bindings == old(proc.bindings)
      ensures proc.active == old(proc.active) + [InitFrame(old(proc.defaultDtype),
                                                           if Truthy(replaceLayers) then Some(old(proc.bindings)) else None)]
    {
      var defaultDtype := proc.defaultDtype;
      proc.SetDefaultDtype(dtype);
      var replace := Truthy(replaceLayers);
      var saved: Option<Bindings> := None;
      if replace {
        saved := Some(proc.bindings);
        proc.AssignLinear(TELinearClass);
        proc.AssignLayerNorm(TELayerNormClass);
      }
      proc.Suspend(InitFrame(defaultDtype, saved));
    }

    /** Entering `forward_context()` (lines 118-124): save, then set, the default dtype. */
    method EnterForwardContext(proc: Process)
      modifies proc
      ensures proc.Snapshot() == Step(old(proc.Snapshot()), Enter(ForwardContext(dtype)))
      ensures proc.defaultDtype == dtype && proc.bindings == old(proc.bindings)
      ensures proc.active == old(proc.active) + [ForwardFrame(old(proc.defaultDtype))]
    {
      var defaultDtype := proc.defaultDtype;
      proc.SetDefaultDtype(dtype);
      proc.Suspend(ForwardFrame(defaultDtype));
    }
  }
}
