/**
 Inferring what kind of grid file a dataset is (src/momgrid/util.py).

 `IsHgrid` and `IsStatic` look only at the set of variable names;
 `IsSymmetric` looks only at the lengths of the tracer (`xh`, `yh`) and
 corner (`xq`, `yq`) dimensions. Lengths are read in the order the Python code
 evaluates them: `xq`, `xh`, `yq`, `yh`.
 */
module Util {
  import opened Datasets

  /** The variables an ocean_hgrid.nc supergrid file must carry. */
  const HgridVariables: set<string> := {"x", "y", "dx", "dy"}

  /** The variables an ocean_static.nc file must carry at least. */
  const StaticVariables: set<string> := {"geolon", "geolat"}

  function IsHgrid(names: set<string>): (r: bool)
    ensures r <==> "x" in names && "y" in names && "dx" in names && "dy" in names
  {
    HgridVariables <= names
  }

  function IsStatic(names: set<string>): (r: bool)
    ensures r <==> "geolon" in names && "geolat" in names
  {
    StaticVariables <= names
  }

  /** Adding variables never makes a supergrid or static file stop being one. */
  lemma DetectionMonotone(names: set<string>, more: set<string>)
    requires names <= more
    ensures IsHgrid(names) ==> IsHgrid(more)
    ensures IsStatic(names) ==> IsStatic(more)
  {
  }

  /** Variables other than the expected ones do not affect detection. */
  lemma DetectionIgnoresOthers(names: set<string>, others: set<string>)
    requires others !! (HgridVariables + StaticVariables)
    ensures IsHgrid(names + others) == IsHgrid(names)
    ensures IsStatic(names + others) == IsStatic(names)
  {
  }

  /** Length of the named dimension, or the KeyError the lookup raises. */
  function Len(dimLens: map<string, nat>, name: string): (r: Result<nat>)
    ensures r.Ok? <==> name in dimLens
    ensures r.Ok? ==> r.value == dimLens[name]
    ensures r.Err? ==> r.error == MissingDimension(name)
  {
    if name in dimLens then Ok(dimLens[name]) else Err(MissingDimension(name))
  }

  /** Corner-minus-tracer length along one axis; may be negative. */
  function Delta(d: map<string, nat>, q: string, h: string): int
    requires q in d && h in d
  {
    d[q] as int - d[h] as int
  }

  /** All four dimension names are known. */
  predicate HasDims(d: map<string, nat>, xh: string, yh: string, xq: string, yq: string) {
    xq in d && xh in d && yq in d && yh in d
  }

  /**
   `is_symmetric` with explicit dimension names: true for symmetric memory
   mode (one more corner point than tracer points along both axes), false for
   non-symmetric mode (as many corner points as tracer points), and a failed
   assertion otherwise.
   */
  function IsSymmetricNamed(d: map<string, nat>, xh: string, yh: string, xq: string, yq: string): (r: Result<bool>)
    ensures !HasDims(d, xh, yh, xq, yq) ==> r.Err? && r.error.MissingDimension?
    ensures r.Ok? <==>
              HasDims(d, xh, yh, xq, yq)
              && Delta(d, xq, xh) == Delta(d, yq, yh)
              && (Delta(d, xq, xh) == 0 || Delta(d, xq, xh) == 1)
    ensures r == Ok(true) <==> HasDims(d, xh, yh, xq, yq) && d[xq] == d[xh] + 1 && d[yq] == d[yh] + 1
    ensures r == Ok(false) <==> HasDims(d, xh, yh, xq, yq) && d[xq] == d[xh] && d[yq] == d[yh]
    ensures HasDims(d, xh, yh, xq, yq) && Delta(d, xq, xh) != Delta(d, yq, yh) ==> r == Err(UnequalDeltas)
    ensures HasDims(d, xh, yh, xq, yq) && Delta(d, xq, xh) == Delta(d, yq, yh) && r.Err? ==> r == Err(NeitherLayout)
  {
    match Len(d, xq)
    case Err(e) => Err(e)
    case Ok(lxq) =>
      match Len(d, xh)
      case Err(e) => Err(e)
      case Ok(lxh) =>
        match Len(d, yq)
        case Err(e) => Err(e)
        case Ok(lyq) =>
          match Len(d, yh)
          case Err(e) => Err(e)
          case Ok(lyh) =>
            var xdiff := lxq as int - lxh as int;
            var ydiff := lyq as int - lyh as int;
            if xdiff != ydiff then Err(UnequalDeltas)
            else if xdiff != 0 && xdiff != 1 then Err(NeitherLayout)
            else Ok(xdiff == 1)
  }

  /** `is_symmetric(ds)` with its default dimension names. */
  function IsSymmetric(d: map<string, nat>): (r: Result<bool>)
    ensures r.Ok? <==> HasDims(d, "xh", "yh", "xq", "yq")
                       && Delta(d, "xq", "xh") == Delta(d, "yq", "yh") && 0 <= Delta(d, "xq", "xh") <= 1
    ensures r == Ok(true) <==> HasDims(d, "xh", "yh", "xq", "yq") && d["xq"] == d["xh"] + 1 && d["yq"] == d["yh"] + 1
    ensures r == Ok(false) <==> HasDims(d, "xh", "yh", "xq", "yq") && d["xq"] == d["xh"] && d["yq"] == d["yh"]
  {
    IsSymmetricNamed(d, "xh", "yh", "xq", "yq")
  }

  /** Only the four named lengths matter: datasets that agree on them are classified alike. */
  lemma IsSymmetricDependsOnlyOnFourLengths(d: map<string, nat>, e: map<string, nat>)
    requires HasDims(d, "xh", "yh", "xq", "yq") && HasDims(e, "xh", "yh", "xq", "yq")
    requires d["xh"] == e["xh"] && d["yh"] == e["yh"] && d["xq"] == e["xq"] && d["yq"] == e["yq"]
    ensures IsSymmetric(d) == IsSymmetric(e)
  {
  }

  /** Lengths laid out with the same offset `k` along both axes classify as `k == 1`. */
  lemma IsSymmetricOfOffset(d: map<string, nat>, ny: nat, nx: nat, k: nat)
    requires k <= 1
    requires HasDims(d, "xh", "yh", "xq", "yq")
    requires d["yh"] == ny && d["xh"] == nx && d["yq"] == ny + k && d["xq"] == nx + k
    ensures IsSymmetric(d) == Ok(k == 1)
  {
  }
}
