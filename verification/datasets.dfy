/**
 An abstraction of the xarray containers the package reads and writes.

 A dataset is a map from variable name to a labelled two-dimensional array,
 together with the length of every dimension name it knows. The failures the
 package can run into (a missing key, a failed assertion, an attribute that
 was never set, an xarray dimension clash) are values of `Error`.
 */
module Datasets {
  import opened Arrays

  datatype Option<+T> = None | Some(value: T)

  datatype Error =
    | MissingVariable(name: string)        // KeyError / AttributeError on a variable
    | MissingDimension(name: string)       // KeyError on a dimension name
    | UnequalDeltas                        // is_symmetric: x and y deltas differ
    | NeitherLayout                        // is_symmetric: delta is not 0 or 1
    | UnsupportedGridType(gridType: string) // static_to_xesmf: grid_type != "t"
    | NotSymmetric                         // static_to_xesmf: non-symmetric input
    | MissingAttribute(name: string)       // to_xarray on a grid with no metrics
    | DimensionConflict                    // xarray: one dimension, two lengths

  datatype Result<+T> = Ok(value: T) | Err(error: Error) {
    predicate IsFailure() { Err? }

    function PropagateFailure<U>(): Result<U>
      requires Err?
    {
      Err(error)
    }

    function Extract(): T
      requires Ok?
    {
      value
    }
  }

  /** A labelled array: its two dimension names and its values. */
  datatype Variable = Variable(dims: seq<string>, data: Matrix)

  datatype Dataset = Dataset(vars: map<string, Variable>, dimLens: map<string, nat>)

  /** `ds.name`, or the AttributeError of a missing name. */
  function Lookup(vars: map<string, Variable>, name: string): (r: Result<Variable>)
    ensures r.Ok? <==> name in vars
    ensures r.Ok? ==> r.value == vars[name]
    ensures r.Err? ==> r.error == MissingVariable(name)
  {
    if name in vars then Ok(vars[name]) else Err(MissingVariable(name))
  }

  /** `ds[name].values`, or the KeyError of a missing name. */
  function Get(vars: map<string, Variable>, name: string): (r: Result<Matrix>)
    ensures r.Ok? <==> name in vars
    ensures r.Ok? ==> r.value == vars[name].data
    ensures r.Err? ==> r.error == MissingVariable(name)
  {
    if name in vars then Ok(vars[name].data) else Err(MissingVariable(name))
  }

  /** The values of `v` have the lengths `dimLens` records for its dimensions. */
  predicate Conforms(v: Variable, dimLens: map<string, nat>) {
    && |v.dims| == 2
    && v.dims[0] in dimLens && v.dims[1] in dimLens
    && IsShape(v.data, dimLens[v.dims[0]], dimLens[v.dims[1]])
  }
}
