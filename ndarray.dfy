/**
 * The typed numpy array of src/python/numpy.rs: a buffer of items seen
 * through a shape, strides and a flag word. Strides are counted in items
 * (numpy's byte strides divided by the item size); `start` is the buffer
 * index the array's data address designates.
 */
module NdArrays {
  import opened Wrappers
  import opened Errors
  import opened Strides

  // ---------------------------------------------------------------------------------------------
  // Flags.
  // ---------------------------------------------------------------------------------------------

  const C_CONTIGUOUS: bv32 := 0x0001
  const WRITEABLE: bv32 := 0x0400

  /** The two flag settings the binding layer creates views with. */
  datatype ArrayFlags = ReadOnly | ReadWrite

  /** `From<PyArrayFlags> for c_int`. */
  function FlagBits(f: ArrayFlags): (bits: bv32)
    ensures f == ReadOnly ==> bits == 0x0001
    ensures f == ReadWrite ==> bits == 0x0401
    ensures bits & C_CONTIGUOUS != 0
    ensures (bits & WRITEABLE != 0) <==> f == ReadWrite
  {
    match f
    case ReadOnly => C_CONTIGUOUS
    case ReadWrite => C_CONTIGUOUS | WRITEABLE
  }

  /** The flag word after `readonly()`: WRITEABLE is cleared, every other bit is kept. */
  function ClearWriteable(flags: bv32): (r: bv32)
    ensures r & WRITEABLE == 0
    ensures r & !WRITEABLE == flags & !WRITEABLE
    ensures r & C_CONTIGUOUS == flags & C_CONTIGUOUS
  {
    flags & !WRITEABLE
  }

  // ---------------------------------------------------------------------------------------------
  // Conversions of sizes to numpy's integer types.
  // ---------------------------------------------------------------------------------------------

  const I32_MAX: nat := 0x7FFF_FFFF
  /** npy_intp is a signed address-sized integer; a 64-bit target is modelled. */
  const INTP_MAX: nat := 0x7FFF_FFFF_FFFF_FFFF

  /** `try_size`: a usize converts to npy_intp when it fits. */
  function TrySize(size: nat): (r: Result<nat, Error>)
    ensures r.Success? <==> size <= INTP_MAX
    ensures r.Success? ==> r.value == size
    ensures r.Failure? ==> r.error == BadIntp(size)
  {
    if size <= INTP_MAX then Success(size) else Failure(BadIntp(size))
  }

  ghost predicate ShapeFits(shape: seq<nat>)
  {
    |shape| <= I32_MAX && forall k :: 0 <= k < |shape| ==> shape[k] <= INTP_MAX
  }

  /**
   * `try_shape`: the dimension count must fit an i32, then every dimension
   * an npy_intp; the first dimension that does not is the one reported.
   */
  method TryShape(shape: seq<nat>) returns (r: Result<(nat, seq<nat>), Error>)
    ensures r.Success? <==> ShapeFits(shape)
    ensures r.Success? ==> r.value == (|shape|, shape)
    ensures |shape| > I32_MAX ==> r == Failure(BadI32(|shape|))
    ensures r.Failure? && |shape| <= I32_MAX ==>
      exists k :: 0 <= k < |shape| && r.error == BadIntp(shape[k]) && shape[k] > INTP_MAX &&
        forall k' :: 0 <= k' < k ==> shape[k'] <= INTP_MAX
  {
    if |shape| > I32_MAX {
      return Failure(BadI32(|shape|));
    }
    var raw: seq<nat> := [];
    var k := 0;
    while k < |shape|
      invariant 0 <= k <= |shape|
      invariant raw == shape[..k]
      invariant forall k' :: 0 <= k' < k ==> shape[k'] <= INTP_MAX
    {
      var v :- TrySize(shape[k]);
      raw := raw + [v];
      k := k + 1;
    }
    assert raw == shape;
    return Success((|shape|, raw));
  }

  // ---------------------------------------------------------------------------------------------
  // Arrays.
  // ---------------------------------------------------------------------------------------------

  /** Three floats, as numerics' Float3. */
  datatype Float3 = Float3(x: real, y: real, z: real)

  class NdArray<T(0)> {
    const shape: seq<nat>
    const strides: seq<int>
    const start: int
    const buffer: array<T>
    var flags: bv32

    /**
     * Every in-range flat index lands inside the buffer, and an array flagged
     * C-contiguous lays its items out in row-major order from `start`.
     */
    ghost predicate Valid()
      reads this
    {
      && |strides| == |shape|
      && (forall index: nat {:trigger Offset(shape, strides, index)} :: index < Size(shape) ==>
            0 <= start + Offset(shape, strides, index) < buffer.Length)
      && (flags & C_CONTIGUOUS != 0 ==>
            forall index: nat {:trigger Offset(shape, strides, index)} :: index < Size(shape) ==>
              Offset(shape, strides, index) == index)
    }

    /** The buffer index of the item with this flat index. */
    ghost function Position(index: nat): int
      requires |strides| == |shape| && index < Size(shape)
    {
      start + Offset(shape, strides, index)
    }

    /** The item with this flat (row-major) index. */
    ghost function At(index: nat): T
      reads this, buffer
      requires Valid() && index < Size(shape)
    {
      buffer[Position(index)]
    }

    /** The first n items, in flat order. */
    ghost function Prefix(n: nat): (items: seq<T>)
      reads this, buffer
      requires Valid() && n <= Size(shape)
      ensures |items| == n && forall k :: 0 <= k < n ==> items[k] == At(k)
    {
      if n == 0 then [] else Prefix(n - 1) + [At(n - 1)]
    }

    ghost predicate Writeable()
      reads this
    {
      flags & WRITEABLE != 0
    }

    ghost predicate Contiguous()
      reads this
    {
      flags & C_CONTIGUOUS != 0
    }

    /** An array that Python hands over, with whatever strides it has. */
    constructor Strided(buffer: array<T>, shape: seq<nat>, strides: seq<int>, start: int, flags: bv32)
      requires |strides| == |shape|
      requires forall index: nat {:trigger Offset(shape, strides, index)} :: index < Size(shape) ==>
        0 <= start + Offset(shape, strides, index) < buffer.Length
      requires flags & C_CONTIGUOUS != 0 ==>
        forall index: nat {:trigger Offset(shape, strides, index)} :: index < Size(shape) ==>
          Offset(shape, strides, index) == index
      ensures Valid()
      ensures this.buffer == buffer && this.shape == shape && this.strides == strides
      ensures this.start == start && this.flags == flags
    {
      this.buffer := buffer;
      this.shape := shape;
      this.strides := strides;
      this.start := start;
      this.flags := flags;
    }

    /** A C-contiguous array over the first Size(shape) items of a buffer. */
    constructor RowMajor(buffer: array<T>, shape: seq<nat>, flags: bv32)
      requires Size(shape) <= buffer.Length
      ensures Valid()
      ensures this.buffer == buffer && this.shape == shape && this.strides == CStrides(shape, 1)
      ensures this.start == 0 && this.flags == flags
      ensures forall index: nat :: index < Size(shape) ==> Position(index) == index
    {
      this.buffer := buffer;
      this.shape := shape;
      this.strides := CStrides(shape, 1);
      this.start := 0;
      this.flags := flags;
      new;
      forall index: nat | index < Size(shape)
        ensures Offset(shape, strides, index) == index
      {
        ContiguousOffset(shape, 1, index);
      }
    }

    /** `offset_of`: peels the flat index into digits from the last dimension on. */
    method OffsetOf(index: nat) returns (offset: int)
      requires Valid()
      requires index < Size(shape)   // `data` checks this before it calls
      ensures offset == Offset(shape, strides, index)
    {
      var n := |shape|;
      if n == 0 {
        return 0;
      }
      var remainder: nat := index;
      offset := 0;
      var i := n;
      assert shape[..n] == shape && strides[..n] == strides;
      while i > 0
        invariant 0 <= i <= n
        invariant remainder < Size(shape[..i])
        invariant offset + Dot(Digits(shape[..i], remainder), strides[..i]) == Dot(Digits(shape, index), strides)
      {
        var m := shape[i - 1];
        assert shape[..i][..i - 1] == shape[..i - 1];
        assert strides[..i][..i - 1] == strides[..i - 1];
        DivBound(remainder, Size(shape[..i - 1]), m);
        var j := remainder % m;
        DivMod(remainder, m);
        remainder := (remainder - j) / m;
        offset := offset + j * strides[i - 1];
        i := i - 1;
      }
    }

    /** `data`: the buffer index of an item, or an IndexError past the end. */
    method Data(index: nat) returns (r: Result<int, Error>)
      requires Valid()
      ensures index >= Size(shape) <==> r.Failure?
      ensures index >= Size(shape) ==> r.error == IndexOutOfRange(Size(shape), index)
      ensures index < Size(shape) ==> r.value == Position(index) && 0 <= r.value < buffer.Length
    {
      var size := Size(shape);
      if index >= size {
        return Failure(IndexOutOfRange(size, index));
      }
      var offset := OffsetOf(index);
      return Success(start + offset);
    }

    /** `get`: the item with this flat index. */
    method Get(index: nat) returns (r: Result<T, Error>)
      requires Valid()
      ensures index >= Size(shape) ==> r == Failure(IndexOutOfRange(Size(shape), index))
      ensures index < Size(shape) ==> r == Success(At(index))
    {
      var p :- Data(index);
      return Success(buffer[p]);
    }

    /** `is_writeable`. */
    function IsWriteable(): (r: Outcome<Error>)
      reads this
      ensures r.Pass? <==> flags & WRITEABLE != 0
      ensures r.Fail? ==> r.error == ReadOnlyDestination
    {
      if flags & WRITEABLE == 0 then Fail(ReadOnlyDestination) else Pass
    }

    /** `is_contiguous`. */
    function IsContiguous(): (r: Outcome<Error>)
      reads this
      ensures r.Pass? <==> flags & C_CONTIGUOUS != 0
      ensures r.Fail? ==> r.error == NotContiguous
    {
      if flags & C_CONTIGUOUS == 0 then Fail(NotContiguous) else Pass
    }

    /**
     * `set`: refused on a read-only array and past the end, both without any
     * change; otherwise exactly the item's buffer cell is replaced.
     */
    method Set(index: nat, value: T) returns (r: Outcome<Error>)
      requires Valid()
      modifies buffer
      ensures !Writeable() ==> r == Fail(ReadOnlyDestination) && buffer[..] == old(buffer[..])
      ensures Writeable() && index >= Size(shape) ==>
        r == Fail(IndexOutOfRange(Size(shape), index)) && buffer[..] == old(buffer[..])
      ensures Writeable() && index < Size(shape) ==>
        r == Pass && buffer[..] == old(buffer[..])[Position(index) := value]
    {
      var w := IsWriteable();
      if w.Fail? {
        return w;
      }
      var p := Data(index);
      if p.Failure? {
        return Fail(p.error);
      }
      buffer[p.value] := value;
      return Pass;
    }

    /** `readonly`: clears the WRITEABLE bit only. */
    method Readonly()
      requires Valid()
      modifies this
      ensures Valid()
      ensures flags == ClearWriteable(old(flags))
      ensures !Writeable()
    {
      flags := ClearWriteable(flags);
    }

    /**
     * `slice_mut`: the buffer window [start, start + size) of a C-contiguous,
     * writeable array; contiguity is checked first.
     */
    function SliceMut(): (r: Result<(int, nat), Error>)
      reads this
      ensures r.Success? <==> Contiguous() && Writeable()
      ensures !Contiguous() ==> r == Failure(NotContiguous)
      ensures Contiguous() && !Writeable() ==> r == Failure(ReadOnlyDestination)
      ensures r.Success? ==> r.value == (start, Size(shape))
    {
      if flags & C_CONTIGUOUS == 0 then Failure(NotContiguous)
      else if flags & WRITEABLE == 0 then Failure(ReadOnlyDestination)
      else Success((start, Size(shape)))
    }
  }

  /** The window `slice_mut` hands out holds the items in row-major order. */
  lemma SliceLayout<T(0)>(a: NdArray<T>, k: nat)
    requires a.Valid() && a.SliceMut().Success? && k < Size(a.shape)
    ensures 0 <= a.start + k < a.buffer.Length
    ensures a.At(k) == a.buffer[a.start + k]
  {
    assert Offset(a.shape, a.strides, k) == k;
  }

  /**
   * In a C-contiguous array, a successful `set(index, v)` is seen by
   * `get(index)` and by no other index.
   */
  lemma SetThenGet<T(0)>(a: NdArray<T>, before: seq<T>, index: nat, v: T, k: nat)
    requires a.Valid() && a.Contiguous() && index < Size(a.shape) && k < Size(a.shape)
    requires |before| == a.buffer.Length
    requires a.buffer[..] == before[a.Position(index) := v]
    ensures a.At(k) == if k == index then v else before[a.Position(k)]
  {
    assert a.Position(k) == a.start + k && a.Position(index) == a.start + index;
    assert a.At(k) == a.buffer[..][a.Position(k)];
  }

  /** An array whose item k sits in buffer cell k holds, item for item, what its buffer holds. */
  lemma RowMajorItems<T(0)>(a: NdArray<T>, items: seq<T>)
    requires a.Valid() && |items| == Size(a.shape) <= a.buffer.Length
    requires forall k: nat :: k < Size(a.shape) ==> a.Position(k) == k
    requires a.buffer[..|items|] == items
    ensures forall k: nat :: k < |items| ==> a.At(k) == items[k]
  {
    forall k: nat | k < |items| ensures a.At(k) == items[k] {
      assert a.Position(k) == k;
      assert a.buffer[..|items|][k] == a.buffer[k];
    }
  }

  /** `empty`: a fresh, writeable, C-contiguous array with unspecified items. */
  method Empty<T(0)>(shape: seq<nat>) returns (r: Result<NdArray<T>, Error>)
    ensures r.Success? <==> ShapeFits(shape)
    ensures |shape| > I32_MAX ==> r == Failure(BadI32(|shape|))
    ensures r.Failure? && |shape| <= I32_MAX ==>
      exists k :: 0 <= k < |shape| && r.error == BadIntp(shape[k]) && shape[k] > INTP_MAX &&
        forall k' :: 0 <= k' < k ==> shape[k'] <= INTP_MAX
    ensures r.Success? ==> (
      var a := r.value;
      fresh(a) && fresh(a.buffer) && a.Valid() && a.shape == shape && a.flags == FlagBits(ReadWrite) &&
      a.buffer.Length == Size(shape) && a.start == 0 &&
      forall k: nat :: k < Size(shape) ==> a.Position(k) == k)
  {
    var _ :- TryShape(shape);
    var buffer := new T[Size(shape)];
    var a := new NdArray.RowMajor(buffer, shape, FlagBits(ReadWrite));
    return Success(a);
  }

  /** `zeros`: as `empty`, with every item the zero of its type. */
  method Zeros<T(0)>(shape: seq<nat>, zero: T) returns (r: Result<NdArray<T>, Error>)
    ensures r.Success? <==> ShapeFits(shape)
    ensures r.Success? ==> (
      var a := r.value;
      fresh(a) && fresh(a.buffer) && a.Valid() && a.shape == shape && a.flags == FlagBits(ReadWrite) &&
      a.buffer.Length == Size(shape) && a.start == 0 &&
      (forall k: nat :: k < Size(shape) ==> a.Position(k) == k && a.At(k) == zero) &&
      forall k :: 0 <= k < a.buffer.Length ==> a.buffer[k] == zero)
  {
    var _ :- TryShape(shape);
    var buffer := new T[Size(shape)](_ => zero);
    var a := new NdArray.RowMajor(buffer, shape, FlagBits(ReadWrite));
    return Success(a);
  }

  /**
   * `from_data`: a C-contiguous view sharing `data`. With an explicit shape its
   * size must equal `data`'s length; without one the view is 1-D.
   */
  method FromData<T(0)>(data: array<T>, flags: ArrayFlags, shape: Option<seq<nat>>)
    returns (r: Result<NdArray<T>, Error>)
    ensures shape.Some? && Size(shape.value) != data.Length ==>
      r == Failure(BadArraySize(data.Length, Size(shape.value)))
    ensures r.Success? <==>
      if shape.None? then data.Length <= INTP_MAX
      else Size(shape.value) == data.Length && ShapeFits(shape.value)
    ensures r.Success? ==> (
      var a := r.value;
      fresh(a) && a.Valid() && a.buffer == data && a.flags == FlagBits(flags) &&
      a.shape == (if shape.None? then [data.Length] else shape.value) &&
      forall k: nat :: k < data.Length ==> a.Position(k) == k)
  {
    var dims: seq<nat>;
    match shape {
      case None =>
        var size :- TrySize(data.Length);
        dims := [size];
      case Some(s) =>
        if Size(s) != data.Length {
          return Failure(BadArraySize(data.Length, Size(s)));
        }
        var _ :- TryShape(s);
        dims := s;
    }
    assert Size(dims) == data.Length by {
      if shape.None? {
        assert dims[..0] == [];
      }
    }
    var a := new NdArray.RowMajor(data, dims, FlagBits(flags));
    return Success(a);
  }

  /** `from_iter`: an `empty` array whose leading items are taken from `items`, in order. */
  method FromIter<T(0)>(shape: seq<nat>, items: seq<T>) returns (r: Result<NdArray<T>, Error>)
    ensures r.Success? <==> ShapeFits(shape)
    ensures r.Success? ==> (
      var a := r.value;
      fresh(a) && fresh(a.buffer) && a.Valid() && a.shape == shape && a.flags == FlagBits(ReadWrite) &&
      a.Writeable() && forall k: nat :: k < Size(shape) && k < |items| ==> a.At(k) == items[k])
  {
    var a :- Empty<T>(shape);
    var window := a.SliceMut();
    assert window.Success?;   // a fresh `empty` array is C-contiguous and writeable
    var (first, len) := window.value;
    var k := 0;
    while k < len && k < |items|
      invariant 0 <= k <= len && k <= |items| && first == 0 && len == a.buffer.Length
      invariant forall k': nat :: k' < k ==> a.buffer[k'] == items[k']
      modifies a.buffer
    {
      a.buffer[first + k] := items[k];
      k := k + 1;
    }
    forall k': nat | k' < Size(shape) && k' < |items| ensures a.At(k') == items[k'] {
      SliceLayout(a, k');
    }
    return Success(a);
  }

  // ---------------------------------------------------------------------------------------------
  // Argument adapters.
  // ---------------------------------------------------------------------------------------------

  /** A Python argument that is either a float array or a single float. */
  datatype ArrayOrFloat = Array(items: NdArray<real>) | Float(value: real)
  {
    predicate IsFloat()
    {
      Float?
    }

    /** `size`: a scalar counts as one item. */
    function Size(): (n: nat)
      ensures Float? ==> n == 1
      ensures Array? ==> n == Strides.Size(items.shape)
    {
      match this
      case Array(a) => Strides.Size(a.shape)
      case Float(_) => 1
    }

    /** `get`: a scalar answers every index with itself. */
    method Get(index: nat) returns (r: Result<real, Error>)
      requires Array? ==> items.Valid()
      ensures Float? ==> r == Success(value)
      ensures Array? && index < Size() ==> r == Success(items.At(index))
      ensures Array? && index >= Size() ==> r.Failure? && KindOf(r.error) == IndexErrorKind
    {
      match this
      case Array(a) =>
        r := a.Get(index);
      case Float(v) =>
        r := Success(v);
    }
  }

  /** A shape argument: a single dimension or a list of them. */
  datatype ShapeArg = Scalar(dim: nat) | Vector(dims: seq<nat>)
  {
    function ToShape(): (s: seq<nat>)
      ensures Scalar? ==> |s| == 1 && Strides.Size(s) == dim
      ensures Vector? ==> s == dims
    {
      match this
      case Scalar(v) => [v]
      case Vector(v) => v
    }
  }

  /** `Float3::into_py`: a read-only array of three items. */
  method Float3ToArray(v: Float3) returns (a: NdArray<real>)
    ensures fresh(a) && a.Valid() && a.shape == [3] && !a.Writeable()
    ensures a.At(0) == v.x && a.At(1) == v.y && a.At(2) == v.z
  {
    var r := Empty<real>([3]);
    assert ShapeFits([3]);
    a := r.value;
    assert Size([3]) == 3 by { assert [3][..0] == []; }
    assert a.Position(0) == 0 && a.Position(1) == 1 && a.Position(2) == 2;
    var _ := a.Set(0, v.x);
    var _ := a.Set(1, v.y);
    var _ := a.Set(2, v.z);
    assert a.buffer[0] == v.x && a.buffer[1] == v.y && a.buffer[2] == v.z;
    a.Readonly();
  }
}
