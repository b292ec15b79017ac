/**
 Handing a static file to xESMF (src/momgrid/external.py): the tracer-cell
 centres and the corner points become the `lat`/`lon` and `lat_b`/`lon_b`
 variables xESMF expects, and `wet` becomes `mask`. Only tracer grids in
 symmetric memory mode are accepted, where the corner points enclose every
 tracer cell.
 */
module External {
  import opened Arrays
  import opened Datasets
  import opened Util

  /** The static variables read. */
  const XesmfSources: set<string> := {"geolat", "geolon", "geolat_c", "geolon_c", "wet"}

  const XesmfNames: set<string> := {"lat", "lon", "lat_b", "lon_b", "mask"}

  /** `static_to_xesmf(ds, grid_type)`; the failed assertions and missing attributes are errors. */
  function StaticToXesmf(ds: Dataset, gridType: string): (r: Result<map<string, Variable>>)
    ensures r.Ok? <==> gridType == "t" && IsSymmetric(ds.dimLens) == Ok(true) && XesmfSources <= ds.vars.Keys
    ensures gridType != "t" ==> r == Err(UnsupportedGridType(gridType))
    ensures gridType == "t" && IsSymmetric(ds.dimLens).Err? ==> r == Err(IsSymmetric(ds.dimLens).error)
    ensures gridType == "t" && IsSymmetric(ds.dimLens) == Ok(false) ==> r == Err(NotSymmetric)
    ensures r.Err? && r.error.MissingVariable? ==>
              && gridType == "t" && IsSymmetric(ds.dimLens) == Ok(true)
              && r.error.name in XesmfSources && r.error.name !in ds.vars
    // never the empty dataset of the Python code's `else` branch
    ensures r.Ok? ==> r.value.Keys == XesmfNames
    ensures r.Ok? ==>
              && r.value["lat"] == ds.vars["geolat"] && r.value["lon"] == ds.vars["geolon"]
              && r.value["lat_b"] == ds.vars["geolat_c"] && r.value["lon_b"] == ds.vars["geolon_c"]
              && r.value["mask"] == ds.vars["wet"]
  {
    if gridType != "t" then Err(UnsupportedGridType(gridType))
    else
      var symmetric :- IsSymmetric(ds.dimLens);
      if !symmetric then Err(NotSymmetric)
      else
        var lat :- Lookup(ds.vars, "geolat");
        var lon :- Lookup(ds.vars, "geolon");
        var latB :- Lookup(ds.vars, "geolat_c");
        var lonB :- Lookup(ds.vars, "geolon_c");
        var mask :- Lookup(ds.vars, "wet");
        Ok(map["lat" := lat, "lon" := lon, "lat_b" := latB, "lon_b" := lonB, "mask" := mask])
  }

  /** Variable `n` of `ds` lies on dimensions `y`, `x` and has their lengths. */
  predicate Placed(ds: Dataset, n: string, y: string, x: string) {
    n in ds.vars && ds.vars[n].dims == [y, x] && Conforms(ds.vars[n], ds.dimLens)
  }

  /**
   On a static file whose centres lie on (yh, xh) and corners on (yq, xq), an
   accepted conversion yields bounds with one more row and one more column
   than the centres, the shape xESMF requires of cell boundaries.
   */
  lemma BoundsEncloseCentres(ds: Dataset)
    requires Placed(ds, "geolat", "yh", "xh") && Placed(ds, "geolon", "yh", "xh")
    requires Placed(ds, "geolat_c", "yq", "xq") && Placed(ds, "geolon_c", "yq", "xq")
    requires StaticToXesmf(ds, "t").Ok?
    ensures var out := StaticToXesmf(ds, "t").value;
            var ny, nx := ds.dimLens["yh"], ds.dimLens["xh"];
            && IsShape(out["lat"].data, ny, nx) && IsShape(out["lon"].data, ny, nx)
            && IsShape(out["lat_b"].data, ny + 1, nx + 1) && IsShape(out["lon_b"].data, ny + 1, nx + 1)
  {
  }
}
