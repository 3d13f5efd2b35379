/** Points and grids: the `Point` and `Grid` models and `Grid.to_points`.

    A `Grid` is a longitude/latitude bounding box with a step on each axis.
    `to_points` lays `from_to_by` sequences along both axes and returns the
    cartesian product as points, x in the outer loop and y in the inner one.
    Every point is validated as it is built, so a coordinate that the rounded
    step count carries outside the longitude or latitude range makes the
    whole expansion fail. */
module Geo {
  import opened Wrappers
  import opened Rounding
  import opened Sequences
  import opened Schema

  /** A validated point: its coordinates are within range by construction. */
  datatype Point = Point(x: Longitude, y: Latitude)

  /** A validated grid: the four bounds are within range; the two steps are
      unconstrained floats. */
  datatype Grid = Grid(xmin: Longitude, xmax: Longitude, xres: real, ymin: Latitude, ymax: Latitude, yres: real)

  /** Failures of `to_points`: a zero step divides by zero, and a generated
      coordinate out of range is rejected by the `Point` model. `index` is the
      position of the rejected point in the output order. */
  datatype GridError = ZeroDivision | PointRejected(index: nat, violations: seq<Violation>)

  /** The precision `to_points` asks `from_to_by` for. */
  const DefaultDigits: int := 8

  /** `Point(x=x, y=y)`: accepted exactly when both coordinates are in range;
      otherwise each offending coordinate is reported. */
  function MakePoint(x: real, y: real): (r: Result<Point, seq<Violation>>)
    ensures r.Success? <==> IsLongitude(x) && IsLatitude(y)
    ensures r.Success? ==> r.value.x == x && r.value.y == y
    ensures r.Failure? ==> (Violation(["x"], OutOfRange(LongitudeRange)) in r.error <==> !IsLongitude(x))
    ensures r.Failure? ==> (Violation(["y"], OutOfRange(LatitudeRange)) in r.error <==> !IsLatitude(y))
    ensures r.Failure? ==> forall e :: e in r.error ==>
              e == Violation(["x"], OutOfRange(LongitudeRange)) || e == Violation(["y"], OutOfRange(LatitudeRange))
  {
    if IsLongitude(x) && IsLatitude(y) then Success(Point(x, y))
    else
      var ex := if IsLongitude(x) then [] else [Violation(["x"], OutOfRange(LongitudeRange))];
      var ey := if IsLatitude(y) then [] else [Violation(["y"], OutOfRange(LatitudeRange))];
      Failure(ex + ey)
  }

  /** The fields of `Grid`, in declaration order. */
  const GridSchema: seq<FieldSpec> := [
    FieldSpec("xmin", FloatKind, LongitudeRange, Required),
    FieldSpec("xmax", FloatKind, LongitudeRange, Required),
    FieldSpec("xres", FloatKind, Unconstrained, Required),
    FieldSpec("ymin", FloatKind, LatitudeRange, Required),
    FieldSpec("ymax", FloatKind, LatitudeRange, Required),
    FieldSpec("yres", FloatKind, Unconstrained, Required)
  ]

  /** The float at position `i` of a validated field sequence. */
  function FloatAt(vals: seq<Option<Scalar>>, i: nat): real
    requires i < |vals| && vals[i].Some? && vals[i].value.SFloat?
  {
    vals[i].value.f
  }

  /** Builds a `Grid` from a parsed dictionary. A dictionary is a valid grid
      exactly when both x bounds are longitudes, both y bounds are latitudes
      and both steps are numbers; the grid then holds those numbers.
      Otherwise the errors are those of the failing fields. */
  function ParseGrid(v: Value): (r: Result<Grid, seq<Violation>>)
    ensures !v.VDict? ==> r == Failure([Violation([], NotADict)])
    ensures r.Success? <==>
              v.VDict? &&
              LongitudeField(v.fields, "xmin") && LongitudeField(v.fields, "xmax") && NumberField(v.fields, "xres") &&
              LatitudeField(v.fields, "ymin") && LatitudeField(v.fields, "ymax") && NumberField(v.fields, "yres")
    ensures r.Success? ==>
              var g, m := r.value, v.fields;
              g.xmin == AsNumber(m["xmin"]) && g.xmax == AsNumber(m["xmax"]) && g.xres == AsNumber(m["xres"]) &&
              g.ymin == AsNumber(m["ymin"]) && g.ymax == AsNumber(m["ymax"]) && g.yres == AsNumber(m["yres"])
    ensures v.VDict? && r.Failure? ==>
              ValidateFields(v.fields, GridSchema).Failure? && r.error == ValidateFields(v.fields, GridSchema).error
    ensures r.Failure? ==> |r.error| > 0
  {
    if !v.VDict? then Failure([Violation([], NotADict)])
    else
      var m := v.fields;
      GridEach(m);
      GridFieldsValidate(m);
      match ValidateFields(m, GridSchema)
      case Failure(es) => Failure(es)
      case Success(vals) =>
        assert vals[0] == ValidateField(m, GridSchema[0]).value;
        assert vals[1] == ValidateField(m, GridSchema[1]).value;
        assert vals[2] == ValidateField(m, GridSchema[2]).value;
        assert vals[3] == ValidateField(m, GridSchema[3]).value;
        assert vals[4] == ValidateField(m, GridSchema[4]).value;
        assert vals[5] == ValidateField(m, GridSchema[5]).value;
        Success(Grid(FloatAt(vals, 0), FloatAt(vals, 1), FloatAt(vals, 2),
                     FloatAt(vals, 3), FloatAt(vals, 4), FloatAt(vals, 5)))
  }

  /** Field `name` of `m` holds a number in the stated range: the reference
      reading of one constrained float field, independent of the schema. */
  predicate LongitudeField(m: map<string, Value>, name: string)
  {
    name in m && IsNumber(m[name]) && IsLongitude(AsNumber(m[name]))
  }

  predicate LatitudeField(m: map<string, Value>, name: string)
  {
    name in m && IsNumber(m[name]) && IsLatitude(AsNumber(m[name]))
  }

  predicate NumberField(m: map<string, Value>, name: string)
  {
    name in m && IsNumber(m[name])
  }

  /** The grid's fields validate together exactly when each of them
      validates on its own. */
  lemma GridFieldsValidate(m: map<string, Value>)
    ensures ValidateFields(m, GridSchema).Success? <==>
              LongitudeField(m, "xmin") && LongitudeField(m, "xmax") && NumberField(m, "xres") &&
              LatitudeField(m, "ymin") && LatitudeField(m, "ymax") && NumberField(m, "yres")
  {
    GridEach(m);
    var ok := ValidateField(m, GridSchema[0]).Success? && ValidateField(m, GridSchema[1]).Success? &&
              ValidateField(m, GridSchema[2]).Success? && ValidateField(m, GridSchema[3]).Success? &&
              ValidateField(m, GridSchema[4]).Success? && ValidateField(m, GridSchema[5]).Success?;
    if ok {
      forall i | 0 <= i < |GridSchema|
        ensures ValidateField(m, GridSchema[i]).Success?
      {
        assert i == 0 || i == 1 || i == 2 || i == 3 || i == 4 || i == 5;
      }
    }
  }

  /** Each grid field on its own. */
  lemma GridEach(m: map<string, Value>)
    ensures ValidateField(m, GridSchema[0]).Success? <==> LongitudeField(m, "xmin")
    ensures ValidateField(m, GridSchema[1]).Success? <==> LongitudeField(m, "xmax")
    ensures ValidateField(m, GridSchema[2]).Success? <==> NumberField(m, "xres")
    ensures ValidateField(m, GridSchema[3]).Success? <==> LatitudeField(m, "ymin")
    ensures ValidateField(m, GridSchema[4]).Success? <==> LatitudeField(m, "ymax")
    ensures ValidateField(m, GridSchema[5]).Success? <==> NumberField(m, "yres")
    ensures ValidateField(m, GridSchema[0]).Success? ==> ValidateField(m, GridSchema[0]).value == Some(SFloat(AsNumber(m["xmin"])))
    ensures ValidateField(m, GridSchema[1]).Success? ==> ValidateField(m, GridSchema[1]).value == Some(SFloat(AsNumber(m["xmax"])))
    ensures ValidateField(m, GridSchema[2]).Success? ==> ValidateField(m, GridSchema[2]).value == Some(SFloat(AsNumber(m["xres"])))
    ensures ValidateField(m, GridSchema[3]).Success? ==> ValidateField(m, GridSchema[3]).value == Some(SFloat(AsNumber(m["ymin"])))
    ensures ValidateField(m, GridSchema[4]).Success? ==> ValidateField(m, GridSchema[4]).value == Some(SFloat(AsNumber(m["ymax"])))
    ensures ValidateField(m, GridSchema[5]).Success? ==> ValidateField(m, GridSchema[5]).value == Some(SFloat(AsNumber(m["yres"])))
  {
    RequiredFloat(m, GridSchema[0]);
    RequiredFloat(m, GridSchema[1]);
    RequiredFloat(m, GridSchema[2]);
    RequiredFloat(m, GridSchema[3]);
    RequiredFloat(m, GridSchema[4]);
    RequiredFloat(m, GridSchema[5]);
  }

  /** The dictionary a grid is written as. */
  function GridValue(g: Grid): Value
  {
    VDict(map[
      "xmin" := VFloat(g.xmin), "xmax" := VFloat(g.xmax), "xres" := VFloat(g.xres),
      "ymin" := VFloat(g.ymin), "ymax" := VFloat(g.ymax), "yres" := VFloat(g.yres)])
  }

  /** Writing a grid as a dictionary and validating it gives the grid back. */
  lemma ParseGridValue(g: Grid)
    ensures ParseGrid(GridValue(g)) == Success(g)
  {
  }

  /** `[(x, y) for x in xs for y in ys]`: the pairs row by row, one row per x. */
  function Product(xs: seq<real>, ys: seq<real>): seq<(real, real)>
  {
    if xs == [] then []
    else seq(|ys|, j requires 0 <= j < |ys| => (xs[0], ys[j])) + Product(xs[1..], ys)
  }

  lemma {:induction false} ProductLength(xs: seq<real>, ys: seq<real>)
    ensures |Product(xs, ys)| == |xs| * |ys|
  {
    if xs != [] {
      ProductLength(xs[1..], ys);
      assert |xs| * |ys| == |ys| + (|xs| - 1) * |ys|;
    }
  }

  lemma RowOffset(i: nat, m: nat, j: nat)
    requires i > 0
    ensures i * m + j == m + ((i - 1) * m + j)
  {
  }

  lemma RowBound(i: nat, n: nat, m: nat, j: nat)
    requires i < n && j < m
    ensures i * m + j < n * m
  {
    assert (i + 1) * m <= n * m by {
      assert n * m - (i + 1) * m == (n - i - 1) * m;
    }
  }

  /** The pair at `i * |ys| + j` is `(xs[i], ys[j])`: x varies slower than y. */
  lemma {:induction false} ProductAt(xs: seq<real>, ys: seq<real>, i: nat, j: nat)
    requires i < |xs| && j < |ys|
    ensures |Product(xs, ys)| == |xs| * |ys|
    ensures i * |ys| + j < |xs| * |ys|
    ensures Product(xs, ys)[i * |ys| + j] == (xs[i], ys[j])
  {
    ProductLength(xs, ys);
    RowBound(i, |xs|, |ys|, j);
    var row := seq(|ys|, j requires 0 <= j < |ys| => (xs[0], ys[j]));
    assert Product(xs, ys) == row + Product(xs[1..], ys);
    if i == 0 {
      assert Product(xs, ys)[j] == row[j];
    } else {
      ProductAt(xs[1..], ys, i - 1, j);
      RowOffset(i, |ys|, j);
      assert Product(xs, ys)[i * |ys| + j] == Product(xs[1..], ys)[(i - 1) * |ys| + j];
    }
  }

  /** Every pair of the product comes from some `xs[i]` and `ys[j]`. */
  lemma {:induction false} ProductCovers(xs: seq<real>, ys: seq<real>, k: nat)
    requires k < |Product(xs, ys)|
    ensures exists i, j :: 0 <= i < |xs| && 0 <= j < |ys| && Product(xs, ys)[k] == (xs[i], ys[j])
  {
    var row := seq(|ys|, j requires 0 <= j < |ys| => (xs[0], ys[j]));
    if k < |ys| {
      assert Product(xs, ys)[k] == (xs[0], ys[k]);
    } else {
      assert Product(xs, ys) == row + Product(xs[1..], ys);
      ProductCovers(xs[1..], ys, k - |ys|);
      var i, j :| 0 <= i < |xs| - 1 && 0 <= j < |ys| && Product(xs[1..], ys)[k - |ys|] == (xs[1..][i], ys[j]);
      assert Product(xs, ys)[k] == (xs[i + 1], ys[j]);
    }
  }

  predicate ValidPair(p: (real, real))
  {
    IsLongitude(p.0) && IsLatitude(p.1)
  }

  /** Builds the points in order, stopping at the first pair the `Point`
      model rejects. */
  function MakePoints(pairs: seq<(real, real)>): (r: Result<seq<Point>, GridError>)
    ensures r.Success? <==> forall k :: 0 <= k < |pairs| ==> ValidPair(pairs[k])
    ensures r.Success? ==> |r.value| == |pairs|
    ensures r.Success? ==> forall k :: 0 <= k < |pairs| ==> r.value[k].x == pairs[k].0 && r.value[k].y == pairs[k].1
    ensures r.Failure? ==>
              r.error.PointRejected? && r.error.index < |pairs| &&
              !ValidPair(pairs[r.error.index]) &&
              (forall k :: 0 <= k < r.error.index ==> ValidPair(pairs[k])) &&
              r.error.violations == MakePoint(pairs[r.error.index].0, pairs[r.error.index].1).error
  {
    if pairs == [] then Success([])
    else
      match MakePoint(pairs[0].0, pairs[0].1)
      case Failure(vs) => Failure(PointRejected(0, vs))
      case Success(p) =>
        var rest := MakePoints(pairs[1..]);
        assert forall k :: 1 <= k < |pairs| ==> pairs[k] == pairs[1..][k - 1];
        if rest.Success? then Success([p] + rest.value)
        else Failure(PointRejected(rest.error.index + 1, rest.error.violations))
  }

  /** The x and y sequences of a grid whose steps are not zero. */
  function Xs(g: Grid): seq<real>
    requires g.xres != 0.0
  {
    FromToBy(g.xmin, g.xmax, g.xres, DefaultDigits).value
  }

  function Ys(g: Grid): seq<real>
    requires g.yres != 0.0
  {
    FromToBy(g.ymin, g.ymax, g.yres, DefaultDigits).value
  }

  /** `Grid.to_points()`. */
  function ToPoints(g: Grid): (r: Result<seq<Point>, GridError>)
    ensures r == Failure(ZeroDivision) <==> g.xres == 0.0 || g.yres == 0.0
  {
    match FromToBy(g.xmin, g.xmax, g.xres, DefaultDigits)
    case Failure(_) => Failure(ZeroDivision)
    case Success(xs) =>
      match FromToBy(g.ymin, g.ymax, g.yres, DefaultDigits)
      case Failure(_) => Failure(ZeroDivision)
      case Success(ys) => MakePoints(Product(xs, ys))
  }

  lemma ToPointsUnfold(g: Grid)
    requires g.xres != 0.0 && g.yres != 0.0
    ensures ToPoints(g) == MakePoints(Product(Xs(g), Ys(g)))
  {
  }

  /** A successful expansion has one point per (x, y) pair: `|xs| * |ys|`
      in all. */
  lemma ToPointsCount(g: Grid)
    ensures ToPoints(g).Success? ==>
              g.xres != 0.0 && g.yres != 0.0 && |ToPoints(g).value| == |Xs(g)| * |Ys(g)|
  {
    if g.xres != 0.0 && g.yres != 0.0 {
      ToPointsUnfold(g);
      ProductLength(Xs(g), Ys(g));
    }
  }

  /** The point at `i * |ys| + j` is `(xs[i], ys[j])`: x in the outer loop,
      y in the inner one. */
  lemma ToPointsOrder(g: Grid, i: nat, j: nat)
    requires ToPoints(g).Success?
    requires g.xres != 0.0 && g.yres != 0.0
    requires i < |Xs(g)| && j < |Ys(g)|
    ensures i * |Ys(g)| + j < |ToPoints(g).value|
    ensures ToPoints(g).value[i * |Ys(g)| + j].x == Xs(g)[i]
    ensures ToPoints(g).value[i * |Ys(g)| + j].y == Ys(g)[j]
  {
    ToPointsUnfold(g);
    PointsAt(Xs(g), Ys(g), i, j, i * |Ys(g)| + j);
  }

  /** The point form of ProductAt, for any pair of axis sequences. */
  lemma PointsAt(xs: seq<real>, ys: seq<real>, i: nat, j: nat, k: nat)
    requires MakePoints(Product(xs, ys)).Success?
    requires i < |xs| && j < |ys| && k == i * |ys| + j
    ensures k < |MakePoints(Product(xs, ys)).value|
    ensures MakePoints(Product(xs, ys)).value[k].x == xs[i]
    ensures MakePoints(Product(xs, ys)).value[k].y == ys[j]
  {
    var pairs := Product(xs, ys);
    var pts := MakePoints(pairs).value;
    ProductAt(xs, ys, i, j);
    assert pts[k].x == pairs[k].0 && pts[k].y == pairs[k].1;
  }

  /** With non-zero steps, the expansion succeeds exactly when one of the two
      axes is empty or every generated x is a longitude and every generated y
      a latitude. The grid's own bounds do not decide it. */
  lemma ToPointsSucceeds(g: Grid)
    requires g.xres != 0.0 && g.yres != 0.0
    ensures ToPoints(g).Success? <==>
              Xs(g) == [] || Ys(g) == [] ||
              ((forall i :: 0 <= i < |Xs(g)| ==> IsLongitude(Xs(g)[i])) &&
               (forall j :: 0 <= j < |Ys(g)| ==> IsLatitude(Ys(g)[j])))
  {
    ToPointsUnfold(g);
    var xs, ys := Xs(g), Ys(g);
    var pairs := Product(xs, ys);
    ProductLength(xs, ys);
    if ToPoints(g).Success? && xs != [] && ys != [] {
      forall i | 0 <= i < |xs|
        ensures IsLongitude(xs[i])
      {
        ProductAt(xs, ys, i, 0);
        assert ValidPair(pairs[i * |ys| + 0]);
      }
      forall j | 0 <= j < |ys|
        ensures IsLatitude(ys[j])
      {
        ProductAt(xs, ys, 0, j);
        assert ValidPair(pairs[0 * |ys| + j]);
      }
    }
    if (forall i :: 0 <= i < |xs| ==> IsLongitude(xs[i])) && (forall j :: 0 <= j < |ys| ==> IsLatitude(ys[j])) {
      forall k | 0 <= k < |pairs|
        ensures ValidPair(pairs[k])
      {
        ProductCovers(xs, ys, k);
      }
    }
    if xs == [] || ys == [] {
      assert |pairs| == 0;
    }
  }

  /** A grid whose bounds have at most eight decimal places and whose extents
      are whole multiples of positive steps expands without error, and every
      point lies within the grid's own (valid) bounds. */
  lemma ToPointsWithinBounds(g: Grid, kx: nat, ky: nat)
    requires g.xres > 0.0 && g.yres > 0.0
    requires OnLattice(g.xmin, DefaultDigits) && OnLattice(g.xmax, DefaultDigits)
    requires OnLattice(g.ymin, DefaultDigits) && OnLattice(g.ymax, DefaultDigits)
    requires g.xmax == g.xmin + g.xres * kx as real
    requires g.ymax == g.ymin + g.yres * ky as real
    ensures ToPoints(g).Success?
    ensures forall k :: 0 <= k < |ToPoints(g).value| ==>
              g.xmin <= ToPoints(g).value[k].x <= g.xmax && g.ymin <= ToPoints(g).value[k].y <= g.ymax
  {
    FromToByWithinBounds(g.xmin, g.xmax, g.xres, DefaultDigits, kx);
    FromToByWithinBounds(g.ymin, g.ymax, g.yres, DefaultDigits, ky);
    ToPointsSucceeds(g);
    ToPointsUnfold(g);
    var xs, ys := Xs(g), Ys(g);
    var pairs := Product(xs, ys);
    var pts := ToPoints(g).value;
    forall k | 0 <= k < |pts|
      ensures g.xmin <= pts[k].x <= g.xmax && g.ymin <= pts[k].y <= g.ymax
    {
      ProductCovers(xs, ys, k);
      assert pts[k].x == pairs[k].0 && pts[k].y == pairs[k].1;
    }
  }

  /** A grid that passes validation can still fail to expand: x from 179 to
      179.9 by 0.6 produces the longitude 180.2, and the third point is
      rejected. */
  lemma ValidGridMayFailToExpand()
    ensures var g := Grid(179.0, 179.9, 0.6, 0.0, 0.0, 1.0);
            ToPoints(g).Failure? && ToPoints(g).error.PointRejected? && ToPoints(g).error.index == 2
  {
    var g := Grid(179.0, 179.9, 0.6, 0.0, 0.0, 1.0);
    FromToByOvershoots();
    var xs := Xs(g);
    var ys := Ys(g);
    FromToByExact(0.0, 0.0, 1.0, DefaultDigits, 0);
    assert |ys| == 1;
    FromToByElement(179.0, 179.9, 0.6, DefaultDigits, 0);
    FromToByElement(179.0, 179.9, 0.6, DefaultDigits, 1);
    assert Scale(8) == 100000000.0;
    ProductAt(xs, ys, 0, 0);
    ProductAt(xs, ys, 1, 0);
    ProductAt(xs, ys, 2, 0);
  }

  /** The grid from 0 to 1 by 0.5 in x and from 0 to 1 by 1 in y expands to
      x-sequence [0, 0.5, 1] and y-sequence [0, 1], that is six points in the
      order (0, 0), (0, 1), (0.5, 0), (0.5, 1), (1, 0), (1, 1). */
  lemma ToPointsSmallGrid()
    ensures var g := Grid(0.0, 1.0, 0.5, 0.0, 1.0, 1.0);
            ToPoints(g).Success? &&
            Xs(g) == [0.0, 0.5, 1.0] && Ys(g) == [0.0, 1.0] &&
            ToPoints(g).value == [Point(0.0, 0.0), Point(0.0, 1.0), Point(0.5, 0.0),
                                  Point(0.5, 1.0), Point(1.0, 0.0), Point(1.0, 1.0)]
  {
    var g := Grid(0.0, 1.0, 0.5, 0.0, 1.0, 1.0);
    assert Scale(DefaultDigits) == 100000000.0;
    var xs, ys := Xs(g), Ys(g);
    FromToByExact(0.0, 1.0, 0.5, DefaultDigits, 2);
    FromToByExact(0.0, 1.0, 1.0, DefaultDigits, 1);
    FromToByElement(0.0, 1.0, 0.5, DefaultDigits, 0);
    FromToByElement(0.0, 1.0, 0.5, DefaultDigits, 1);
    FromToByElement(0.0, 1.0, 1.0, DefaultDigits, 0);
    RoundDigitsOnLattice(0.0, DefaultDigits);
    RoundDigitsOnLattice(0.5, DefaultDigits);
    RoundDigitsOnLattice(1.0, DefaultDigits);
    assert xs == [0.0, 0.5, 1.0];
    assert ys == [0.0, 1.0];
    ToPointsWithinBounds(g, 2, 1);
    ToPointsCount(g);
    var pts := ToPoints(g).value;
    ToPointsOrder(g, 0, 0);
    ToPointsOrder(g, 0, 1);
    ToPointsOrder(g, 1, 0);
    ToPointsOrder(g, 1, 1);
    ToPointsOrder(g, 2, 0);
    ToPointsOrder(g, 2, 1);
  }
}
