/**
 * The azimuthal equidistant projection object of backend/proj.py: the
 * bookkeeping `Proj.__init__` does around the pyproj object (radii, full-disk
 * extent, corners, bounding box) and the evenly spaced x/y mesh of
 * `makegrid`.  pyproj's inverse transform is a parameter.
 */
module Proj {
  import opened Py

  /** A value of a projection parameter dictionary. */
  datatype Param = Num(x: real) | Text(t: string)

  /** numpy's `np.pi`, the double closest to pi. */
  const Pi: real := 3.141592653589793

  /** The state `Proj.__init__` leaves behind; nothing updates it afterwards. */
  datatype Proj = Proj(
    projparams: map<string, Param>,
    projection: string,
    rmajor: real, rminor: real,
    ellipsoid: bool, flattening: real, esq: real,
    llcrnrlon: real, llcrnrlat: real,
    urcrnrlon: real, urcrnrlat: real,
    fulldisk: bool,
    width: real, height: real,
    llcrnrx: real, llcrnry: real,
    urcrnrx: real, urcrnry: real,
    xmin: real, xmax: real,
    ymin: real, ymax: real)

  /** The ordered bounds of an interval given by two ends (lines 92-104). */
  function MinMax(ll: real, ur: real): (r: (real, real))
    ensures r.0 <= r.1
    ensures (r.0 == ll && r.1 == ur) || (r.0 == ur && r.1 == ll)
  {
    if ur > ll then (ll, ur) else (ur, ll)
  }

  /**
   * `Proj(projparams, llcrnrlon, llcrnrlat, urcrnrlon, urcrnrlat, urcrnrislatlon)`.
   * `inverseCorner` is what pyproj's inverse gives at the x/y upper-right
   * corner; it is used only when that corner is given in projection units.
   */
  function NewProj(projparams: map<string, Param>, llcrnrlon: real, llcrnrlat: real,
                   urcrnrlon: real, urcrnrlat: real, urcrnrislatlon: bool,
                   inverseCorner: (real, real)): (r: Result<Proj>)
    ensures "R" !in projparams ==> r == Err(KeyError)
    ensures "R" in projparams && projparams["R"].Text? ==> r == Err(TypeError)
    ensures r.Ok? <==> "R" in projparams && projparams["R"].Num?
    ensures r.Ok? ==> var p := r.value; var R := projparams["R"].x;
      && p.rmajor == R && p.rminor == R
      && !p.ellipsoid && p.flattening == 0.0 && p.esq == 0.0 && p.fulldisk
      && p.width == Pi * R && p.height == Pi * R
      && p.projparams == projparams["x_0" := Num(Pi * R)]["y_0" := Num(Pi * R)]
      && p.llcrnrx == llcrnrlon && p.llcrnry == llcrnrlat
      && p.llcrnrlon == llcrnrlon && p.llcrnrlat == llcrnrlat
    ensures r.Ok? && urcrnrislatlon ==> var p := r.value;
      && p.urcrnrx == 2.0 * p.width && p.urcrnry == 2.0 * p.height
      && p.urcrnrlon == urcrnrlon && p.urcrnrlat == urcrnrlat
    ensures r.Ok? && !urcrnrislatlon ==> var p := r.value;
      && p.urcrnrx == urcrnrlon && p.urcrnry == urcrnrlat
      && (p.urcrnrlon, p.urcrnrlat) == inverseCorner
    ensures r.Ok? ==> var p := r.value;
      && p.xmin <= p.xmax && p.ymin <= p.ymax
      && ((p.xmin, p.xmax) == (p.llcrnrx, p.urcrnrx) || (p.xmin, p.xmax) == (p.urcrnrx, p.llcrnrx))
      && ((p.ymin, p.ymax) == (p.llcrnry, p.urcrnry) || (p.ymin, p.ymax) == (p.urcrnry, p.llcrnry))
  {
    if "R" !in projparams then Err(KeyError)
    else match projparams["R"]
      case Text(_) => Err(TypeError)
      case Num(R) =>
        var llx0 := -Pi * R;
        var width := -llx0;
        var params := projparams["x_0" := Num(-llx0)]["y_0" := Num(-llx0)];
        var llx, lly := llcrnrlon, llcrnrlat;
        var (urx, ury, urlon, urlat) :=
          if urcrnrislatlon then (2.0 * width, 2.0 * width, urcrnrlon, urcrnrlat)
          else (urcrnrlon, urcrnrlat, inverseCorner.0, inverseCorner.1);
        var (xmin, xmax) := MinMax(llx, urx);
        var (ymin, ymax) := MinMax(lly, ury);
        Ok(Proj(params, "aeqd", R, R, false, 0.0, 0.0,
                llcrnrlon, llcrnrlat, urlon, urlat, true, width, width,
                llx, lly, urx, ury, xmin, xmax, ymin, ymax))
  }

  // -----------------------------------------------------------------------
  // makegrid
  // -----------------------------------------------------------------------

  /** The k-th of n evenly spaced points from lo to hi: lo + k * (hi - lo) / (n - 1). */
  function Spaced(lo: real, hi: real, n: int, k: int): real
    requires n != 1
  {
    lo + ((hi - lo) / (n - 1) as real) * k as real
  }

  /** The first and the last of the evenly spaced points are the two ends. */
  lemma SpacedEnds(lo: real, hi: real, n: int)
    requires n >= 2
    ensures Spaced(lo, hi, n, 0) == lo
    ensures Spaced(lo, hi, n, n - 1) == hi
  {
    var d := (hi - lo) / (n - 1) as real;
    assert d * (n - 1) as real == hi - lo;
  }

  /** The points increase with k when hi > lo. */
  lemma SpacedIncreasing(lo: real, hi: real, n: int, k: int, l: int)
    requires n >= 2 && hi > lo && k < l
    ensures Spaced(lo, hi, n, k) < Spaced(lo, hi, n, l)
  {
    var d := (hi - lo) / (n - 1) as real;
    assert d > 0.0;
    assert d * l as real - d * k as real == d * (l - k) as real;
  }

  /** The x and y meshes of shape (ny, nx). */
  datatype Mesh = Mesh(x: seq<seq<real>>, y: seq<seq<real>>)

  /** A rectangular array of `rows` rows of `cols` entries each. */
  predicate IsMesh(m: seq<seq<real>>, rows: nat, cols: nat)
  {
    |m| == rows && forall j :: 0 <= j < rows ==> |m[j]| == cols
  }

  /**
   * The mesh lines 139-142 build: x[j][i] steps from llcrnrx to urcrnrx along
   * i, y[j][i] from llcrnry to urcrnry along j.  nx or ny equal to 1 divides
   * by zero; a negative size is refused by `np.indices`.
   */
  function MakeMesh(p: Proj, nx: int, ny: int): (r: Result<Mesh>)
    ensures nx == 1 || ny == 1 ==> r == Err(ZeroDivisionError)
    ensures nx != 1 && ny != 1 && (nx < 0 || ny < 0) ==> r == Err(ValueError)
    ensures r.Ok? <==> nx >= 0 && ny >= 0 && nx != 1 && ny != 1
    ensures r.Ok? ==> IsMesh(r.value.x, ny, nx) && IsMesh(r.value.y, ny, nx)
    ensures r.Ok? ==> forall j, i :: 0 <= j < ny && 0 <= i < nx ==>
      r.value.x[j][i] == Spaced(p.llcrnrx, p.urcrnrx, nx, i) &&
      r.value.y[j][i] == Spaced(p.llcrnry, p.urcrnry, ny, j)
  {
    if nx == 1 || ny == 1 then Err(ZeroDivisionError)
    else if nx < 0 || ny < 0 then Err(ValueError)
    else
      var x := seq(ny, j => seq(nx, i => Spaced(p.llcrnrx, p.urcrnrx, nx, i)));
      var y := seq(ny, j => seq(nx, i => Spaced(p.llcrnry, p.urcrnry, ny, j)));
      Ok(Mesh(x, y))
  }

  /**
   * The mesh spans the projection box: its first and last columns of x are
   * llcrnrx and urcrnrx, its first and last rows of y are llcrnry and
   * urcrnry; x does not change down a column and y does not change along a
   * row; both increase when the upper-right corner exceeds the lower-left.
   */
  lemma MeshGeometry(p: Proj, nx: int, ny: int, m: Mesh)
    requires MakeMesh(p, nx, ny) == Ok(m)
    ensures nx > 0 ==> forall j :: 0 <= j < ny ==> m.x[j][0] == p.llcrnrx && m.x[j][nx - 1] == p.urcrnrx
    ensures ny > 0 ==> forall i :: 0 <= i < nx ==> m.y[0][i] == p.llcrnry && m.y[ny - 1][i] == p.urcrnry
    ensures forall j, k, i :: 0 <= j < ny && 0 <= k < ny && 0 <= i < nx ==> m.x[j][i] == m.x[k][i]
    ensures forall j, i, l :: 0 <= j < ny && 0 <= i < nx && 0 <= l < nx ==> m.y[j][i] == m.y[j][l]
    ensures p.urcrnrx > p.llcrnrx ==>
      forall j, i, l :: 0 <= j < ny && 0 <= i < l < nx ==> m.x[j][i] < m.x[j][l]
    ensures p.urcrnry > p.llcrnry ==>
      forall j, k, i :: 0 <= j < k < ny && 0 <= i < nx ==> m.y[j][i] < m.y[k][i]
  {
    if nx >= 2 {
      SpacedEnds(p.llcrnrx, p.urcrnrx, nx);
    }
    if ny >= 2 {
      SpacedEnds(p.llcrnry, p.urcrnry, ny);
    }
    if p.urcrnrx > p.llcrnrx {
      forall j, i, l | 0 <= j < ny && 0 <= i < l < nx ensures m.x[j][i] < m.x[j][l] {
        SpacedIncreasing(p.llcrnrx, p.urcrnrx, nx, i, l);
      }
    }
    if p.urcrnry > p.llcrnry {
      forall j, k, i | 0 <= j < k < ny && 0 <= i < nx ensures m.y[j][i] < m.y[k][i] {
        SpacedIncreasing(p.llcrnry, p.urcrnry, ny, j, k);
      }
    }
  }

  /** What `makegrid` returns: lons and lats, plus the x/y mesh when asked for. */
  datatype Grid = Grid(lons: seq<seq<real>>, lats: seq<seq<real>>, xy: Option<Mesh>)

  /** Applies pyproj's inverse transform point by point. */
  function InverseMesh(m: Mesh, rows: nat, cols: nat, inverse: (real, real) -> (real, real)): (r: (seq<seq<real>>, seq<seq<real>>))
    requires IsMesh(m.x, rows, cols) && IsMesh(m.y, rows, cols)
    ensures IsMesh(r.0, rows, cols) && IsMesh(r.1, rows, cols)
    ensures forall j, i :: 0 <= j < rows && 0 <= i < cols ==>
      (r.0[j][i], r.1[j][i]) == inverse(m.x[j][i], m.y[j][i])
  {
    (seq(rows, j requires 0 <= j < rows => seq(cols, i requires 0 <= i < cols => inverse(m.x[j][i], m.y[j][i]).0)),
     seq(rows, j requires 0 <= j < rows => seq(cols, i requires 0 <= i < cols => inverse(m.x[j][i], m.y[j][i]).1)))
  }

  /**
   * `makegrid(nx, ny, returnxy)`: the inverse transform of the mesh, with
   * the mesh itself returned exactly when `returnxy` is set.
   */
  function Makegrid(p: Proj, nx: int, ny: int, returnxy: bool,
                    inverse: (real, real) -> (real, real)): (r: Result<Grid>)
    ensures r.Ok? <==> MakeMesh(p, nx, ny).Ok?
    ensures r.Err? ==> r == MakeMesh(p, nx, ny).PropagateFailure()
    ensures r.Ok? ==> (r.value.xy.Some? <==> returnxy)
    ensures r.Ok? && returnxy ==> r.value.xy == Some(MakeMesh(p, nx, ny).value)
    ensures r.Ok? ==> var m := MakeMesh(p, nx, ny).value;
      && IsMesh(r.value.lons, ny, nx) && IsMesh(r.value.lats, ny, nx)
      && forall j, i :: 0 <= j < ny && 0 <= i < nx ==>
           (r.value.lons[j][i], r.value.lats[j][i]) == inverse(m.x[j][i], m.y[j][i])
  {
    var m :- MakeMesh(p, nx, ny);
    var (lons, lats) := InverseMesh(m, ny, nx, inverse);
    Ok(Grid(lons, lats, if returnxy then Some(m) else None))
  }
}
