/** Conversion of a stack of CT slices to Hounsfield units
    (`get_pixels_hu`): the slices are stacked into one int16 volume
    indexed by (slice, row, column), the outside-of-scan marker is
    replaced by 0, and each slice is rescaled in place by its own
    slope and intercept. */
module Hounsfield {
  import Int16

  /** The stored pixel value scanners use for voxels outside the scan. */
  const OutsideScan: int := -2000

  /** One slice as the loader hands it over: its pixel array and the
      `RescaleIntercept` and `RescaleSlope` attributes of its header. */
  datatype Slice = Slice(pixels: seq<seq<int>>, intercept: real, slope: real)

  /** Dimensions of a stacked volume. */
  datatype Shape = Shape(slices: nat, rows: nat, cols: nat)

  /** Why stacking fails: no slices at all, or slices whose pixel arrays
      do not all have the same dimensions. */
  datatype StackError = EmptyStack | ShapeMismatch

  datatype Result<T> = Success(value: T) | Failure(error: StackError)

  /** A volume as a value, indexed by (slice, row, column). */
  type Volume = seq<seq<seq<int>>>

  predicate HasShape(pixels: seq<seq<int>>, rows: nat, cols: nat) {
    |pixels| == rows && forall i :: 0 <= i < rows ==> |pixels[i]| == cols
  }

  /** Every slice's pixel array is `rows` by `cols`. */
  predicate AllHaveShape(slices: seq<Slice>, rows: nat, cols: nat) {
    forall k :: 0 <= k < |slices| ==> HasShape(slices[k].pixels, rows, cols)
  }

  /** The outcome of stacking the pixel arrays into one volume: the
      first slice fixes the row and column count, and every other slice
      must agree with it. */
  function StackShape(slices: seq<Slice>): (r: Result<Shape>)
    ensures r == Failure(EmptyStack) <==> slices == []
    ensures r.Success? ==> r.value.slices == |slices|
    ensures r.Success? ==> AllHaveShape(slices, r.value.rows, r.value.cols)
  {
    if slices == [] then Failure(EmptyStack)
    else
      var rows := |slices[0].pixels|;
      var cols := if rows == 0 then 0 else |slices[0].pixels[0]|;
      if AllHaveShape(slices, rows, cols) then Success(Shape(|slices|, rows, cols))
      else Failure(ShapeMismatch)
  }

  /** Stacking fails with a shape mismatch exactly when the slices
      share no common row and column count. */
  lemma {:induction false} StackFailsIffNoCommonShape(slices: seq<Slice>)
    requires slices != []
    ensures StackShape(slices).Success? <==> exists rows: nat, cols: nat :: AllHaveShape(slices, rows, cols)
  {
    var r := StackShape(slices);
    if r.Success? {
      assert AllHaveShape(slices, r.value.rows, r.value.cols);
    }
  }

  /** `image[image == -2000] = 0`, on one voxel. */
  function ZeroOutsideScan(v: int): (r: int)
    ensures v == OutsideScan ==> r == 0
    ensures v != OutsideScan ==> r == v
  {
    if v == OutsideScan then 0 else v
  }

  /** What one pass of the per-slice loop does to one int16 voxel: when
      the slope is not 1 the voxel is multiplied by it and cast back to
      int16; then the intercept, cast to int16, is added with int16
      wrap-around. */
  function RescaleVoxel(v: int, slope: real, intercept: real): (r: int)
    ensures Int16.InRange(r)
  {
    var scaled := if slope != 1.0 then Int16.FromReal(slope * v as real) else v;
    Int16.Wrap(scaled + Int16.FromReal(intercept))
  }

  /** The Hounsfield value the whole conversion gives a stored pixel value
      `raw` of a slice with the given slope and intercept. */
  function HuVoxel(raw: int, slope: real, intercept: real): (r: int)
    ensures Int16.InRange(r)
  {
    RescaleVoxel(ZeroOutsideScan(Int16.Wrap(raw)), slope, intercept)
  }

  /** A voxel outside the scan ends up at its slice's int16 intercept,
      whatever the slope: it is zeroed first, and zero times the slope
      is still zero. */
  lemma OutsideScanBecomesIntercept(raw: int, slope: real, intercept: real)
    requires Int16.Wrap(raw) == OutsideScan
    ensures HuVoxel(raw, slope, intercept) == Int16.FromReal(intercept)
  {
  }

  /** With slope 1 the multiplication is skipped and a voxel inside the
      scan becomes its int16 value plus the int16 intercept, modulo 2^16,
      and exactly that sum when the sum fits in int16. */
  lemma UnitSlopeAddsIntercept(raw: int, intercept: real)
    requires Int16.Wrap(raw) != OutsideScan
    ensures (HuVoxel(raw, 1.0, intercept) - (Int16.Wrap(raw) + Int16.FromReal(intercept))) % Int16.Modulus == 0
    ensures Int16.InRange(Int16.Wrap(raw) + Int16.FromReal(intercept)) ==>
              HuVoxel(raw, 1.0, intercept) == Int16.Wrap(raw) + Int16.FromReal(intercept)
  {
    var sum := Int16.Wrap(raw) + Int16.FromReal(intercept);
    var r := HuVoxel(raw, 1.0, intercept);
    assert r == Int16.Wrap(sum);
    assert (sum - r) % Int16.Modulus == 0;
    var q := (sum - r) / Int16.Modulus;
    assert r - sum == (-q) * Int16.Modulus;
  }

  /** With slope 1 the conversion of a voxel inside the scan can be
      undone: subtracting the int16 intercept, with wrap-around, gives
      back the stored int16 value. */
  lemma {:induction false} UnitSlopeRescaleInvertible(raw: int, intercept: real)
    requires Int16.Wrap(raw) != OutsideScan
    ensures Int16.Wrap(HuVoxel(raw, 1.0, intercept) - Int16.FromReal(intercept)) == Int16.Wrap(raw)
  {
    var v := Int16.Wrap(raw);
    var c := Int16.FromReal(intercept);
    var r := HuVoxel(raw, 1.0, intercept);
    assert r == Int16.Wrap(v + c);
    var q := (v + c - r) / Int16.Modulus;
    assert v + c - r == q * Int16.Modulus;
    assert r - c == v + (-q) * Int16.Modulus;
    Int16.WrapShift(v, -q);
  }

  /** Under slope 1, two voxels inside the scan get the same Hounsfield
      value exactly when their int16 stored values are equal. */
  lemma {:induction false} UnitSlopeInjective(raw1: int, raw2: int, intercept: real)
    requires Int16.Wrap(raw1) != OutsideScan && Int16.Wrap(raw2) != OutsideScan
    ensures HuVoxel(raw1, 1.0, intercept) == HuVoxel(raw2, 1.0, intercept) <==> Int16.Wrap(raw1) == Int16.Wrap(raw2)
  {
    UnitSlopeRescaleInvertible(raw1, intercept);
    UnitSlopeRescaleInvertible(raw2, intercept);
  }

  /** When nothing leaves the int16 range, the conversion is the linear
      rescale `HU = slope * value + intercept`, each term truncated
      toward zero, of the zeroed stored value; this covers both branches. */
  lemma {:induction false} LinearRescaleWithoutOverflow(raw: int, slope: real, intercept: real)
    requires Int16.InRange(Int16.Trunc(slope * ZeroOutsideScan(Int16.Wrap(raw)) as real))
    requires Int16.InRange(Int16.Trunc(intercept))
    requires Int16.InRange(Int16.Trunc(slope * ZeroOutsideScan(Int16.Wrap(raw)) as real) + Int16.Trunc(intercept))
    ensures HuVoxel(raw, slope, intercept) ==
              Int16.Trunc(slope * ZeroOutsideScan(Int16.Wrap(raw)) as real) + Int16.Trunc(intercept)
  {
    var v := ZeroOutsideScan(Int16.Wrap(raw));
    if slope == 1.0 {
      assert slope * v as real == v as real;
      assert Int16.Trunc(v as real) == v;
    }
  }

  /** The dimensions of a volume. */
  predicate HasDims(image: array3<int>, shape: Shape) {
    image.Length0 == shape.slices && image.Length1 == shape.rows && image.Length2 == shape.cols
  }

  /** `np.stack([s.pixel_array for s in slices]).astype(np.int16)`:
      the pixel arrays become one fresh volume, every value wrapped
      into int16. */
  method StackAsInt16(slices: seq<Slice>, shape: Shape) returns (image: array3<int>)
    requires StackShape(slices) == Success(shape)
    ensures fresh(image) && HasDims(image, shape)
    ensures forall k, i, j :: 0 <= k < image.Length0 && 0 <= i < image.Length1 && 0 <= j < image.Length2 ==>
              image[k, i, j] == Int16.Wrap(slices[k].pixels[i][j])
  {
    image := new int[shape.slices, shape.rows, shape.cols];
    forall k, i, j | 0 <= k < shape.slices && 0 <= i < shape.rows && 0 <= j < shape.cols {
      image[k, i, j] := Int16.Wrap(slices[k].pixels[i][j]);
    }
  }

  /** `image[image == -2000] = 0`: every outside-of-scan voxel, in every
      slice, becomes 0; all other voxels keep their value. */
  method ZeroOutsideScanVoxels(image: array3<int>)
    modifies image
    ensures forall k, i, j :: 0 <= k < image.Length0 && 0 <= i < image.Length1 && 0 <= j < image.Length2 ==>
              image[k, i, j] == ZeroOutsideScan(old(image[k, i, j]))
  {
    forall k, i, j | 0 <= k < image.Length0 && 0 <= i < image.Length1 && 0 <= j < image.Length2 &&
                     image[k, i, j] == OutsideScan {
      image[k, i, j] := 0;
    }
  }

  /** One iteration of the per-slice loop: slice `k` is rescaled in place
      with its own slope and intercept, and every other slice is left as
      it was. */
  method RescaleSlice(image: array3<int>, k: nat, slope: real, intercept: real)
    requires k < image.Length0
    modifies image
    ensures forall i, j :: 0 <= i < image.Length1 && 0 <= j < image.Length2 ==>
              image[k, i, j] == RescaleVoxel(old(image[k, i, j]), slope, intercept)
    ensures forall k', i, j :: 0 <= k' < image.Length0 && k' != k && 0 <= i < image.Length1 && 0 <= j < image.Length2 ==>
              image[k', i, j] == old(image[k', i, j])
  {
    if slope != 1.0 {
      forall i, j | 0 <= i < image.Length1 && 0 <= j < image.Length2 {
        image[k, i, j] := Int16.FromReal(slope * image[k, i, j] as real);
      }
    }
    var offset := Int16.FromReal(intercept);
    forall i, j | 0 <= i < image.Length1 && 0 <= j < image.Length2 {
      image[k, i, j] := Int16.Wrap(image[k, i, j] + offset);
    }
  }

  /** A volume of exactly the given dimensions. */
  predicate VolumeHasShape(v: Volume, shape: Shape) {
    && |v| == shape.slices
    && (forall k :: 0 <= k < |v| ==> |v[k]| == shape.rows)
    && (forall k, i :: 0 <= k < |v| && 0 <= i < |v[k]| ==> |v[k][i]| == shape.cols)
  }

  /** `np.array(image, dtype=np.int16)`: a copy of the working volume,
      taken as a value. */
  function Copy(image: array3<int>): (v: Volume)
    reads image
    ensures VolumeHasShape(v, Shape(image.Length0, image.Length1, image.Length2))
    ensures forall k, i, j :: 0 <= k < |v| && 0 <= i < |v[k]| && 0 <= j < |v[k][i]| ==> v[k][i][j] == image[k, i, j]
  {
    seq(image.Length0, k requires 0 <= k < image.Length0 reads image =>
      seq(image.Length1, i requires 0 <= i < image.Length1 reads image =>
        seq(image.Length2, j requires 0 <= j < image.Length2 reads image => image[k, i, j])))
  }

  /** `get_pixels_hu`: stacking either fails as `np.stack` does, or the
      result has the stack's dimensions and its every voxel is the
      Hounsfield value of its stored pixel under its own slice's slope and
      intercept. */
  method GetPixelsHu(slices: seq<Slice>) returns (r: Result<Volume>)
    ensures r.Failure? <==> StackShape(slices).Failure?
    ensures r.Failure? ==> r.error == StackShape(slices).error
    ensures r.Success? ==> VolumeHasShape(r.value, StackShape(slices).value)
    ensures r.Success? ==>
              forall k, i, j :: 0 <= k < |r.value| && 0 <= i < |r.value[k]| && 0 <= j < |r.value[k][i]| ==>
                r.value[k][i][j] == HuVoxel(slices[k].pixels[i][j], slices[k].slope, slices[k].intercept)
  {
    var stacked := StackShape(slices);
    if stacked.Failure? {
      return Failure(stacked.error);
    }
    var shape := stacked.value;
    var image := StackAsInt16(slices, shape);
    ZeroOutsideScanVoxels(image);
    for sliceNumber := 0 to shape.slices
      invariant forall k, i, j :: 0 <= k < sliceNumber && 0 <= i < shape.rows && 0 <= j < shape.cols ==>
                  image[k, i, j] == HuVoxel(slices[k].pixels[i][j], slices[k].slope, slices[k].intercept)
      invariant forall k, i, j :: sliceNumber <= k < shape.slices && 0 <= i < shape.rows && 0 <= j < shape.cols ==>
                  image[k, i, j] == ZeroOutsideScan(Int16.Wrap(slices[k].pixels[i][j]))
    {
      RescaleSlice(image, sliceNumber, slices[sliceNumber].slope, slices[sliceNumber].intercept);
    }
    return Success(Copy(image));
  }
}
