/**
 * Topography maps and offsets (src/python/geometry.rs): building a map from
 * its ranges, shape and elevations, the arithmetic that shifts a map
 * vertically, and the conversion of interface arguments into the engine's
 * topography data.
 */
module Topography {
  import opened Wrappers
  import opened Errors
  import opened Strides
  import opened NdArrays

  // ---------------------------------------------------------------------------------------------
  // The engine's map.
  // ---------------------------------------------------------------------------------------------

  /**
   * The engine's `TopographyMap`: nx columns over [xmin, xmax], ny rows over
   * [ymin, ymax], and the elevation of node (row i, column j) stored at
   * i * nx + j, which is the layout the binding's z view assumes.
   */
  class TopographyMap {
    const xmin: real
    const xmax: real
    const nx: nat
    const ymin: real
    const ymax: real
    const ny: nat
    const z: array<real>

    /** `TopographyMap::new`: a flat map, every elevation 0, over that grid. */
    constructor (xmin: real, xmax: real, nx: nat, ymin: real, ymax: real, ny: nat)
      ensures this.xmin == xmin && this.xmax == xmax && this.nx == nx
      ensures this.ymin == ymin && this.ymax == ymax && this.ny == ny
      ensures fresh(z) && z.Length == ny * nx
      ensures forall k :: 0 <= k < z.Length ==> z[k] == 0.0
    {
      this.xmin := xmin;
      this.xmax := xmax;
      this.nx := nx;
      this.ymin := ymin;
      this.ymax := ymax;
      this.ny := ny;
      z := new real[ny * nx](_ => 0.0);
    }
  }

  // ---------------------------------------------------------------------------------------------
  // `TopographyMap(xrange, yrange, z=None, shape=None)`.
  // ---------------------------------------------------------------------------------------------

  /**
   * The grid shape (rows, columns) of a new map: the given shape, whose
   * product z's size must then equal (only the total is compared), or else
   * z's own shape, which must be 2-D; with neither there is nothing to go by.
   */
  function MapShape(z: Option<NdArray<real>>, shape: Option<(nat, nat)>): (r: Result<(nat, nat), Error>)
    ensures shape.None? && z.None? ==> r == Failure(CannotInferShape)
    ensures shape.None? && z.Some? && |z.value.shape| != 2 ==> r == Failure(BadZDimension(|z.value.shape|))
    ensures shape.None? && z.Some? && |z.value.shape| == 2 ==> r == Success((z.value.shape[0], z.value.shape[1]))
    ensures shape.Some? && z.Some? && Size(z.value.shape) != shape.value.0 * shape.value.1 ==>
      r == Failure(BadZSize(shape.value.0 * shape.value.1, Size(z.value.shape)))
    ensures shape.Some? && (z.None? || Size(z.value.shape) == shape.value.0 * shape.value.1) ==>
      r == Success(shape.value)
  {
    match shape
    case None =>
      if z.None? then Failure(CannotInferShape)
      else if |z.value.shape| != 2 then Failure(BadZDimension(|z.value.shape|))
      else Success((z.value.shape[0], z.value.shape[1]))
    case Some(s) =>
      if z.Some? && Size(z.value.shape) != s.0 * s.1 then Failure(BadZSize(s.0 * s.1, Size(z.value.shape)))
      else Success(s)
  }

  /** Whatever the shape came from, z holds exactly one item per node, so copying it never runs past its end. */
  lemma MapShapeCoversZ(z: Option<NdArray<real>>, shape: Option<(nat, nat)>)
    requires MapShape(z, shape).Success? && z.Some?
    ensures Size(z.value.shape) == MapShape(z, shape).value.0 * MapShape(z, shape).value.1
  {
    if shape.None? {
      SizeTwo(z.value.shape[0], z.value.shape[1]);
      assert z.value.shape == [z.value.shape[0], z.value.shape[1]];
    }
  }

  /** Node i of an axis of n nodes from min to max, as the `range` closure fills it. */
  function AxisValue(min: real, max: real, n: nat, i: nat): real
    requires i < n
  {
    if i == n - 1 then max
    else if i == 0 then min
    else (max - min) / ((n - 1) as real) * (i as real) + min
  }

  /** With two nodes or more, every node, the last included, is min plus i steps of (max - min) / (n - 1). */
  lemma AxisAffine(min: real, max: real, n: nat, i: nat)
    requires 1 < n && i < n
    ensures AxisValue(min, max, n, i) == min + (i as real) * ((max - min) / ((n - 1) as real))
  {
    var delta := (max - min) / ((n - 1) as real);
    if i == n - 1 {
      assert delta * ((n - 1) as real) == max - min;
    }
  }

  /** The nodes of an axis are evenly spaced, so it rises from min to max when min <= max. */
  lemma AxisEvenlySpaced(min: real, max: real, n: nat, i: nat)
    requires i + 1 < n
    ensures AxisValue(min, max, n, i + 1) - AxisValue(min, max, n, i) == (max - min) / ((n - 1) as real)
    ensures min <= max ==> AxisValue(min, max, n, i) <= AxisValue(min, max, n, i + 1)
  {
    AxisAffine(min, max, n, i);
    AxisAffine(min, max, n, i + 1);
    var delta := (max - min) / ((n - 1) as real);
    assert ((i + 1) as real) * delta == (i as real) * delta + delta;
    if min <= max {
      assert delta >= 0.0;
    }
  }

  /** An axis of one node holds max only: the closure writes min and then max over it. */
  lemma AxisOfOne(min: real, max: real)
    ensures AxisValue(min, max, 1, 0) == max
  {
  }

  /** An axis of n nodes from min to max: a read-only 1-D array whose node i holds AxisValue(min, max, n, i). */
  ghost predicate IsAxis(a: NdArray<real>, min: real, max: real, n: nat)
    reads a, a.buffer
  {
    && a.Valid() && a.shape == [n] && !a.Writeable()
    && forall i: nat :: i < n && i < Size(a.shape) ==> a.At(i) == AxisValue(min, max, n, i)
  }

  /** A 1-D shape of n holds n items. */
  lemma SizeOne(n: nat)
    ensures Size([n]) == n
  {
    assert [n][..0] == [];
  }

  /**
   * The `range` closure: an `empty` 1-D array of n items, min written first,
   * the interior nodes next, max last, then made read-only. An axis of no
   * node fails when min is written.
   */
  method Linspace(min: real, max: real, n: nat) returns (r: Result<NdArray<real>, Error>)
    ensures r.Failure? <==> n == 0 || n > INTP_MAX
    ensures n > INTP_MAX ==> r == Failure(BadIntp(n))
    ensures n == 0 ==> r == Failure(IndexOutOfRange(0, 0))
    ensures r.Success? ==> fresh(r.value) && fresh(r.value.buffer) && IsAxis(r.value, min, max, n)
  {
    var a :- StartAxis(min, n);
    FillAxis(a, min, max, n);
    return Success(a);
  }

  /** The closure's first steps: `empty` of n items, then min written to node 0. */
  method StartAxis(min: real, n: nat) returns (r: Result<NdArray<real>, Error>)
    ensures r.Failure? <==> n == 0 || n > INTP_MAX
    ensures n > INTP_MAX ==> r == Failure(BadIntp(n))
    ensures n == 0 ==> r == Failure(IndexOutOfRange(0, 0))
    ensures r.Success? ==>
      && fresh(r.value) && fresh(r.value.buffer) && Flat(r.value, n)
      && r.value.Writeable() && 0 < n && r.value.buffer[0] == min
  {
    SizeOne(n);
    assert ShapeFits([n]) <==> n <= INTP_MAX;
    var empty := Empty<real>([n]);
    if empty.Failure? {
      assert [n][0] == n;
      return Failure(empty.error);
    }
    var a := empty.value;
    assert a.Writeable() by { assert a.flags == FlagBits(ReadWrite); }
    var first := a.Set(0, min);
    if first.Fail? {
      return Failure(first.error);
    }
    return Success(a);
  }

  /** The rest of the closure once min is in node 0: the interior nodes, max, and the read-only flag. */
  method FillAxis(a: NdArray<real>, min: real, max: real, n: nat)
    requires Flat(a, n) && a.Writeable() && 0 < n && a.buffer[0] == min
    modifies a, a.buffer
    ensures IsAxis(a, min, max, n)
  {
    // For one node the source divides by zero here; the quotient is then never used.
    var delta := if n > 1 then (max - min) / ((n - 1) as real) else 0.0;
    var i := 1;
    while i < n - 1
      invariant 1 <= i <= n && a.Writeable() && Flat(a, n)
      invariant forall k :: 0 <= k < i && k < n - 1 ==> a.buffer[k] == AxisValue(min, max, n, k)
    {
      WriteNode(a, n, i, delta * (i as real) + min);
      i := i + 1;
    }
    WriteNode(a, n, n - 1, max);
    a.Readonly();
    assert Flat(a, n);
  }

  /** A fresh 1-D array of n items whose item k is buffer cell k. */
  ghost predicate Flat(a: NdArray<real>, n: nat)
    reads a
  {
    a.Valid() && a.shape == [n] && a.buffer.Length == n && Size(a.shape) == n &&
    forall k: nat :: k < n ==> a.Position(k) == k
  }

  /** `set` of a node known to be in range on a writeable array: it writes that cell and no other. */
  method WriteNode(a: NdArray<real>, n: nat, k: nat, v: real)
    requires Flat(a, n) && a.Writeable() && k < n
    modifies a.buffer
    ensures Flat(a, n) && a.Writeable() && a.buffer[k] == v
    ensures forall t :: 0 <= t < n && t != k ==> a.buffer[t] == old(a.buffer[t])
  {
    var _ := a.Set(k, v);
  }

  /** The Python `TopographyMap`: the engine's map, its two axes and a view of its elevations. */
  class PyTopographyMap {
    const inner: TopographyMap
    const x: NdArray<real>
    const y: NdArray<real>
    var z: Option<NdArray<real>>

    /** The object before its z view is attached. */
    constructor (inner: TopographyMap, x: NdArray<real>, y: NdArray<real>)
      ensures this.inner == inner && this.x == x && this.y == y && z.None?
    {
      this.inner := inner;
      this.x := x;
      this.y := y;
      z := None;
    }
  }

  /** The first error a map of that shape meets: the x axis, then the y axis. */
  function AxesOutcome(ny: nat, nx: nat): (r: Outcome<Error>)
    ensures r.Pass? <==> 0 < nx <= INTP_MAX && 0 < ny <= INTP_MAX
  {
    if nx > INTP_MAX then Fail(BadIntp(nx))
    else if nx == 0 then Fail(IndexOutOfRange(0, 0))
    else if ny > INTP_MAX then Fail(BadIntp(ny))
    else if ny == 0 then Fail(IndexOutOfRange(0, 0))
    else Pass
  }

  /**
   * `TopographyMap.__new__`: resolve the shape, build the engine's map and
   * copy z into it in row-major order, build the two read-only axes (x has
   * one node per column, y one per row), then attach a writeable view that
   * shares the map's elevations.
   */
  method NewMap(xrange: (real, real), yrange: (real, real), z: Option<NdArray<real>>, shape: Option<(nat, nat)>)
    returns (r: Result<PyTopographyMap, Error>)
    requires z.Some? ==> z.value.Valid()
    ensures MapShape(z, shape).Failure? ==> r == Failure(MapShape(z, shape).error)
    ensures MapShape(z, shape).Success? ==>
      var (ny, nx) := MapShape(z, shape).value;
      && (r.Failure? <==> AxesOutcome(ny, nx).Fail?)
      && (r.Failure? ==> r.error == AxesOutcome(ny, nx).error)
    ensures r.Success? ==> (MapShape(z, shape).Success? && (
      var (ny, nx) := MapShape(z, shape).value;
      var m := r.value;
      && fresh(m) && fresh(m.inner) && fresh(m.inner.z)
      && m.inner.xmin == xrange.0 && m.inner.xmax == xrange.1 && m.inner.nx == nx
      && m.inner.ymin == yrange.0 && m.inner.ymax == yrange.1 && m.inner.ny == ny
      && IsAxis(m.x, xrange.0, xrange.1, nx) && IsAxis(m.y, yrange.0, yrange.1, ny)
      && ZView(m) && m.inner.z.Length == ny * nx
      && forall k: nat :: k < ny * nx ==> m.inner.z[k] == Elevation(z, k)))
  {
    var dims :- MapShape(z, shape);
    var ny, nx := dims.0, dims.1;
    if z.Some? {
      MapShapeCoversZ(z, shape);
    }
    var grid := NewGrid(xrange, yrange, z, ny, nx);
    var axes := NewAxes(xrange, yrange, ny, nx);
    if axes.Failure? {
      return Failure(axes.error);
    }
    var m := AttachZ(grid, axes.value.0, axes.value.1);
    return Success(m);
  }

  /** The engine's map of ny rows and nx columns, z copied into it (or flat when z is absent). */
  method NewGrid(xrange: (real, real), yrange: (real, real), z: Option<NdArray<real>>, ny: nat, nx: nat)
    returns (grid: TopographyMap)
    requires z.Some? ==> z.value.Valid() && Size(z.value.shape) == ny * nx
    ensures fresh(grid) && fresh(grid.z) && grid.z.Length == ny * nx
    ensures grid.xmin == xrange.0 && grid.xmax == xrange.1 && grid.nx == nx
    ensures grid.ymin == yrange.0 && grid.ymax == yrange.1 && grid.ny == ny
    ensures forall k: nat :: k < ny * nx ==> grid.z[k] == Elevation(z, k)
  {
    grid := new TopographyMap(xrange.0, xrange.1, nx, yrange.0, yrange.1, ny);
    if z.Some? {
      CopyZ(grid, z.value, z.value.Prefix(ny * nx));
    }
  }

  /** The two axes, x first: the first of them to fail decides the error. */
  method NewAxes(xrange: (real, real), yrange: (real, real), ny: nat, nx: nat)
    returns (r: Result<(NdArray<real>, NdArray<real>), Error>)
    ensures r.Failure? <==> AxesOutcome(ny, nx).Fail?
    ensures r.Failure? ==> r.error == AxesOutcome(ny, nx).error
    ensures r.Success? ==> fresh(r.value.0) && fresh(r.value.1)
    ensures r.Success? ==> IsAxis(r.value.0, xrange.0, xrange.1, nx) && IsAxis(r.value.1, yrange.0, yrange.1, ny)
  {
    var x :- Linspace(xrange.0, xrange.1, nx);
    var y :- Linspace(yrange.0, yrange.1, ny);
    return Success((x, y));
  }

  /** The Python object around the map and its axes, with the z view attached. */
  method AttachZ(grid: TopographyMap, x: NdArray<real>, y: NdArray<real>) returns (m: PyTopographyMap)
    requires grid.z.Length == grid.ny * grid.nx && grid.nx <= INTP_MAX && grid.ny <= INTP_MAX
    ensures fresh(m) && m.inner == grid && m.x == x && m.y == y && ZView(m)
  {
    m := new PyTopographyMap(grid, x, y);
    SizeTwo(grid.ny, grid.nx);
    assert ShapeFits([grid.ny, grid.nx]);
    var view := FromData(grid.z, ReadWrite, Some([grid.ny, grid.nx]));
    m.z := Some(view.value);
  }

  /** The elevation z gives node k, or 0 when z is absent (nor does a map take any from past z's end). */
  ghost function Elevation(z: Option<NdArray<real>>, k: nat): real
    requires z.Some? ==> z.value.Valid()
    reads if z.Some? then {z.value, z.value.buffer} else {}
  {
    if z.Some? && k < Size(z.value.shape) then z.value.At(k) else 0.0
  }

  /** A grid of ny rows and nx columns has ny * nx nodes. */
  lemma SizeTwo(ny: nat, nx: nat)
    ensures Size([ny, nx]) == ny * nx
  {
    assert [ny, nx][..1] == [ny];
    assert [ny][..0] == [];
    assert Size([ny]) == ny;
  }

  /** The z view of a map: a writeable row-major window onto the map's own elevations. */
  ghost predicate ZView(m: PyTopographyMap)
    reads m, if m.z.Some? then {m.z.value} else {}
  {
    && m.z.Some? && m.z.value.Valid() && m.z.value.buffer == m.inner.z
    && m.z.value.shape == [m.inner.ny, m.inner.nx] && m.z.value.Writeable()
    && m.inner.z.Length == m.inner.ny * m.inner.nx
    && forall k: nat :: k < Size(m.z.value.shape) ==> m.z.value.Position(k) == k
  }

  /** Reading the view reads the map: a write through `map.z` is what the engine then sees. */
  lemma ViewIsMap(m: PyTopographyMap, k: nat)
    requires ZView(m) && k < m.inner.ny * m.inner.nx
    ensures k < Size(m.z.value.shape) && m.z.value.At(k) == m.inner.z[k]
  {
    SizeTwo(m.inner.ny, m.inner.nx);
  }

  /** The copy of z into a fresh map, row after row. */
  method CopyZ(grid: TopographyMap, z: NdArray<real>, ghost items: seq<real>)
    requires z.Valid() && Size(z.shape) == grid.ny * grid.nx == |items| == grid.z.Length
    requires items == z.Prefix(|items|) && grid.z != z.buffer
    modifies grid.z
    ensures forall k :: 0 <= k < |items| ==> grid.z[k] == items[k]
  {
    var i := 0;
    while i < grid.ny
      invariant 0 <= i <= grid.ny && i * grid.nx <= grid.ny * grid.nx
      invariant forall k :: 0 <= k < i * grid.nx ==> grid.z[k] == items[k]
    {
      MulStep(i, grid.ny, grid.nx);
      CopyRow(grid, z, items, i);
      i := i + 1;
    }
  }

  /** Row i of the copy: node (i, j) takes z's item i * nx + j. */
  method CopyRow(grid: TopographyMap, z: NdArray<real>, ghost items: seq<real>, i: nat)
    requires z.Valid() && Size(z.shape) == grid.ny * grid.nx == |items| == grid.z.Length
    requires items == z.Prefix(|items|) && grid.z != z.buffer
    requires i * grid.nx + grid.nx <= grid.ny * grid.nx
    requires forall k :: 0 <= k < i * grid.nx ==> grid.z[k] == items[k]
    modifies grid.z
    ensures forall k :: 0 <= k < i * grid.nx + grid.nx ==> grid.z[k] == items[k]
  {
    var j := 0;
    while j < grid.nx
      invariant 0 <= j <= grid.nx
      invariant forall k :: 0 <= k < i * grid.nx + j ==> grid.z[k] == items[k]
    {
      CopyNode(grid, z, items, i * grid.nx + j);
      j := j + 1;
    }
  }

  /** Node k of the copy takes z's item k. */
  method CopyNode(grid: TopographyMap, z: NdArray<real>, ghost items: seq<real>, k: nat)
    requires z.Valid() && Size(z.shape) == |items| == grid.z.Length
    requires items == z.Prefix(|items|) && grid.z != z.buffer
    requires k < |items|
    requires forall t :: 0 <= t < k ==> grid.z[t] == items[t]
    modifies grid.z
    ensures forall t :: 0 <= t < k + 1 ==> grid.z[t] == items[t]
  {
    var v := z.Get(k);
    grid.z[k] := v.value;
  }

  // ---------------------------------------------------------------------------------------------
  // Offsets.
  // ---------------------------------------------------------------------------------------------

  /** `TopographyOffset`: a map shifted vertically by `offset`; it refers to the map, it does not copy it. */
  datatype TopographyOffset = TopographyOffset(base: PyTopographyMap, offset: real)

  /** `map + c`. */
  function MapAdd(lhs: PyTopographyMap, rhs: real): (r: TopographyOffset)
    ensures r.base == lhs && r.offset == rhs
  {
    TopographyOffset(lhs, rhs)
  }

  /** `c + map`, the same as `map + c`. */
  function MapRadd(rhs: PyTopographyMap, lhs: real): (r: TopographyOffset)
    ensures r.base == rhs && r.offset == lhs
  {
    MapAdd(rhs, lhs)
  }

  /** `map - c`, which is `map + (-c)`. */
  function MapSub(lhs: PyTopographyMap, rhs: real): (r: TopographyOffset)
    ensures r.base == lhs && r.offset == -rhs
  {
    MapAdd(lhs, -rhs)
  }

  /** `offset + c`: the same map, the offsets summed. */
  function OffsetAdd(lhs: TopographyOffset, rhs: real): (r: TopographyOffset)
    ensures r.base == lhs.base && r.offset == lhs.offset + rhs
  {
    TopographyOffset(lhs.base, rhs + lhs.offset)
  }

  /** `c + offset`. */
  function OffsetRadd(rhs: TopographyOffset, lhs: real): (r: TopographyOffset)
    ensures r.base == rhs.base && r.offset == rhs.offset + lhs
  {
    OffsetAdd(rhs, lhs)
  }

  /** `offset - c`. */
  function OffsetSub(lhs: TopographyOffset, rhs: real): (r: TopographyOffset)
    ensures r.base == lhs.base && r.offset == lhs.offset - rhs
  {
    OffsetAdd(lhs, -rhs)
  }

  /** The first argument of `TopographyOffset(lhs, rhs)`. */
  datatype MapOrOffset = MapArg(base: PyTopographyMap) | OffsetArg(offset: TopographyOffset)

  /** `TopographyOffset(lhs, rhs)`: a map shifted by rhs, or an offset shifted further by rhs. */
  function NewOffset(lhs: MapOrOffset, rhs: real): (r: TopographyOffset)
    ensures lhs.MapArg? ==> r == MapAdd(lhs.base, rhs)
    ensures lhs.OffsetArg? ==> r == OffsetAdd(lhs.offset, rhs)
  {
    match lhs
    case MapArg(base) => TopographyOffset(base, rhs)
    case OffsetArg(offset) => TopographyOffset(offset.base, offset.offset + rhs)
  }

  /**
   * Shifting twice is shifting once by the sum, from the map or from an
   * offset. This holds of the model's reals; with the source's floats the
   * two sums may round differently.
   */
  lemma ShiftsAdd(m: PyTopographyMap, a: real, b: real)
    ensures OffsetAdd(MapAdd(m, a), b) == MapAdd(m, a + b)
    ensures OffsetAdd(OffsetAdd(MapAdd(m, a), b), -a - b) == MapAdd(m, 0.0)
  {
  }

  /**
   * Subtracting undoes adding, and the reflected operators agree with the
   * plain ones. `(z + c) - c == z` holds of the model's reals, not in
   * floating point, where the addition may round.
   */
  lemma SubUndoesAdd(o: TopographyOffset, m: PyTopographyMap, c: real)
    ensures OffsetSub(OffsetAdd(o, c), c) == o
    ensures OffsetRadd(o, c) == OffsetAdd(o, c) && MapRadd(m, c) == MapAdd(m, c)
    ensures OffsetAdd(MapSub(m, c), c) == MapAdd(m, 0.0)
  {
  }

  // ---------------------------------------------------------------------------------------------
  // Interface arguments.
  // ---------------------------------------------------------------------------------------------

  /** The engine's `TopographyData`: a flat level, a map, or a map shifted by an offset. */
  datatype TopographyData = Constant(level: real) | Map(base: TopographyMap) | Offset(base: TopographyMap, offset: real)

  /** One item of an interface argument, as Python passes it: a float, a map or an offset. */
  datatype PyTopographyData = ConstantItem(level: real) | MapItem(base: PyTopographyMap) | OffsetItem(offset: TopographyOffset)

  /**
   * `From<PyTopographyData> for TopographyData`: one to one, maps replaced by
   * the engine maps they wrap. An offset always refers to a map, so the
   * source's `unwrap` cannot fail.
   */
  function ToData(d: PyTopographyData): (r: TopographyData)
    ensures d.ConstantItem? <==> r.Constant?
    ensures d.MapItem? <==> r.Map?
    ensures d.ConstantItem? ==> r.level == d.level
    ensures d.MapItem? ==> r.base == d.base.inner
    ensures d.OffsetItem? ==> r == Offset(d.offset.base.inner, d.offset.offset)
  {
    match d
    case ConstantItem(level) => Constant(level)
    case MapItem(base) => Map(base.inner)
    case OffsetItem(offset) => Offset(offset.base.inner, offset.offset)
  }

  /** An interface argument: one item or a sequence of them. */
  datatype PyTopographyInterface = ScalarInterface(item: PyTopographyData) | SequenceInterface(items: seq<PyTopographyData>)

  /** The items of a sequence, converted one by one and pushed in order. */
  function ConvertAll(items: seq<PyTopographyData>): (r: seq<TopographyData>)
    ensures |r| == |items| && forall k :: 0 <= k < |items| ==> r[k] == ToData(items[k])
  {
    if items == [] then [] else ConvertAll(items[..|items| - 1]) + [ToData(items[|items| - 1])]
  }

  /** `From<PyTopographyInterface> for Vec<TopographyData>`: a scalar becomes a one-item vector. */
  function ToInterface(i: PyTopographyInterface): (r: seq<TopographyData>)
    ensures i.ScalarInterface? ==> r == [ToData(i.item)]
    ensures i.SequenceInterface? ==> |r| == |i.items| && forall k :: 0 <= k < |r| ==> r[k] == ToData(i.items[k])
  {
    match i
    case ScalarInterface(item) => [ToData(item)]
    case SequenceInterface(items) => ConvertAll(items)
  }

  /** A scalar interface is the one-item sequence, and converting a sequence distributes over concatenation. */
  lemma InterfaceShapes(d: PyTopographyData, a: seq<PyTopographyData>, b: seq<PyTopographyData>)
    ensures ToInterface(ScalarInterface(d)) == ToInterface(SequenceInterface([d]))
    ensures ToInterface(SequenceInterface(a + b)) == ToInterface(SequenceInterface(a)) + ToInterface(SequenceInterface(b))
  {
    var whole, parts := ConvertAll(a + b), ConvertAll(a) + ConvertAll(b);
    forall k | 0 <= k < |whole| ensures whole[k] == parts[k] {
      if k < |a| {
        assert (a + b)[k] == a[k];
      } else {
        assert (a + b)[k] == b[k - |a|];
      }
    }
  }
}
