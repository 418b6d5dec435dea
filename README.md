# Hounsfield conversion and tissue thresholds of a CT head processor

This project models in Dafny the two parts of `EnhancedDICOMProcessor`
that hold logic of their own. The rest of that script hands its work to
DICOM, image-processing and plotting libraries.

- **Hounsfield conversion** (`get_pixels_hu`). The slices' pixel arrays
  are stacked into one int16 volume indexed by (slice, row, column). The
  outside-of-scan marker -2000 is set to 0. Then each slice in turn is
  multiplied in float64 by its `RescaleSlope` when that slope is not 1 and
  cast back to int16. Then its `RescaleIntercept`, cast to int16, is added
  with int16 wrap-around. Module
  `Hounsfield` (hounsfield.dfy) models this as methods over an `array3<int>`
  that update the volume in place. They are proved against the per-voxel
  specification function `HuVoxel`. The returned copy is a value of type
  `Volume`, which is what the classifier takes.
- **Threshold classification** (the first half of `segment_tissues`).
  It makes three elementwise boolean masks of the volume's shape:
  skull `> 350` (strict), brain `[20, 80]` and vessels `[100, 200]`
  (both ends inclusive). Module `Segmentation` (segmentation.dfy) models them as pure
  functions on `seq<seq<seq<int>>>`.
- Module `Int16` (int16.dfy) gives NumPy's int16 semantics. An integer cast
  or an overflowing addition wraps modulo 2^16. A float-to-int16 cast first
  truncates toward zero.

What the code does, and does not do:
- Classification uses three fixed ranges: a strict lower bound for bone and
  inclusive bounds on both ends for brain and vessels. There is no
  configurable range and no error for an empty range.
- Every slice must carry both `RescaleSlope` and `RescaleIntercept`. A
  slice header without one of them makes the attribute access raise, so
  there is no path where uncalibrated intensities pass through unchanged.
  The model's `Slice` always has both.
- There is no marching-cubes or mesh-volume implementation of its own. The
  isosurface comes from a library, and the displayed "volumes" are vertex
  counts times display constants.

## Model

| member | source | states |
|---|---|---|
| `Int16.Wrap` | enhanced_dicom_processor.py:42 | the int16 cast gives an in-range value congruent to its input modulo 2^16, and leaves in-range values unchanged |
| `Int16.WrapUnique` | enhanced_dicom_processor.py:42 | the wrapped value is the only int16 value congruent to the input modulo 2^16 |
| `Int16.WrapShift` | enhanced_dicom_processor.py:56 | adding any multiple of 2^16 before wrapping changes nothing |
| `Int16.Trunc` | enhanced_dicom_processor.py:53-54 | converting a float to an integer rounds toward zero: the result is within 1 of the input, on the zero side |
| `Int16.FromReal` | enhanced_dicom_processor.py:56 | `np.int16(intercept)` is an int16 value, and equals the truncated input whenever that fits |
| `Hounsfield.StackShape` | enhanced_dicom_processor.py:41 | stacking fails with EmptyStack exactly on an empty slice list; on success it has one layer per slice and every pixel array has the reported rows and columns |
| `Hounsfield.StackFailsIffNoCommonShape` | enhanced_dicom_processor.py:41 | a non-empty stack succeeds if and only if some row and column count fits every slice |
| `Hounsfield.ZeroOutsideScan` | enhanced_dicom_processor.py:45 | the value -2000 becomes 0 and every other value is kept |
| `Hounsfield.RescaleVoxel` | enhanced_dicom_processor.py:52-56 | one loop pass always leaves an int16 value |
| `Hounsfield.HuVoxel` | enhanced_dicom_processor.py:41-56 | every converted voxel lies in [-32768, 32767] |
| `Hounsfield.OutsideScanBecomesIntercept` | enhanced_dicom_processor.py:45-56 | a voxel whose int16 value is -2000 ends at its slice's int16 intercept, whatever the slope |
| `Hounsfield.UnitSlopeAddsIntercept` | enhanced_dicom_processor.py:52-56 | under slope 1, a voxel inside the scan becomes its int16 value plus the int16 intercept modulo 2^16, and exactly that sum when it fits |
| `Hounsfield.UnitSlopeRescaleInvertible` | enhanced_dicom_processor.py:56 | under slope 1, subtracting the int16 intercept with wrap-around gives back the stored int16 value of a voxel inside the scan |
| `Hounsfield.UnitSlopeInjective` | enhanced_dicom_processor.py:52-56 | under slope 1, two voxels inside the scan get equal Hounsfield values if and only if their int16 stored values are equal |
| `Hounsfield.LinearRescaleWithoutOverflow` | enhanced_dicom_processor.py:48-56 | without int16 overflow, the result is `trunc(slope * v) + trunc(intercept)` of the zeroed value `v`, on both branches of the slope test |
| `Hounsfield.StackAsInt16` | enhanced_dicom_processor.py:41-42 | stacking allocates a fresh volume of the stack's dimensions holding each pixel wrapped to int16 |
| `Hounsfield.ZeroOutsideScanVoxels` | enhanced_dicom_processor.py:45 | in place: every voxel equal to -2000 becomes 0 and every other voxel is unchanged |
| `Hounsfield.RescaleSlice` | enhanced_dicom_processor.py:49-56 | in place: one iteration rescales slice k with only its own slope and intercept, and every other slice is unchanged |
| `Hounsfield.GetPixelsHu` | enhanced_dicom_processor.py:39-58 | fails exactly as stacking fails; otherwise returns a volume with the stack's dimensions whose voxel (k, i, j) is `HuVoxel` of pixel (i, j) under slice k's own slope and intercept |
| `Hounsfield.Copy` | enhanced_dicom_processor.py:58 | the returned copy has the working array's dimensions and holds the same value at every voxel |
| `Segmentation.Threshold` | enhanced_dicom_processor.py:78-84 | the masks' shared elementwise comparison: the mask has the image's shape and each voxel is the class predicate of its value |
| `Segmentation.SkullMask` | enhanced_dicom_processor.py:78 | the mask has the image's shape, and a voxel is set if and only if its value is greater than 350 |
| `Segmentation.BrainMask` | enhanced_dicom_processor.py:81 | the mask has the image's shape, and a voxel is set if and only if 20 <= value <= 80 |
| `Segmentation.VesselMask` | enhanced_dicom_processor.py:84 | the mask has the image's shape, and a voxel is set if and only if 100 <= value <= 200 |
| `Segmentation.ThresholdTissues` | enhanced_dicom_processor.py:77-84 | the three raw masks, each the image's shape and each set on exactly its own range |
| `Segmentation.ThresholdMasksDisjoint` | enhanced_dicom_processor.py:78-84 | before clean-up, no voxel is in two of the three masks |
| `Segmentation.OutsideScanIsUnclassified` | enhanced_dicom_processor.py:45-84 | an outside-of-scan voxel in a slice whose int16 intercept is below 20 falls in no mask when the converted values are classified without resampling |

## Left out

- `load_scan`: reading and parsing DICOM files from a directory, and sorting them by a float header field, is I/O. The model starts from the ordered list of slices, each with its pixel array, slope and intercept.
- `Hounsfield.RescaleSlice`: the `slope != 1` branch multiplies in float64 and casts back to int16. The model multiplies exactly as reals, so float64 rounding of the product is not captured. A product or an intercept outside the int16 range is truncated and then wrapped. NumPy's float-to-int16 cast of such values depends on the platform.
- `Int16.FromReal`: `np.int16` of a float outside the int16 range is modelled as wrap-around after truncation. NumPy does not define this case.
- `Hounsfield.StackShape`: a pixel array with zero rows is the empty sequence, so its column count is lost. Slices of shape (0, 3) and (0, 5) would make `np.stack` raise, but the model stacks them. A DICOM image always has at least one row, so this does not arise.
- A slice header missing `RescaleSlope` or `RescaleIntercept` raises in the source. The model's `Slice` always has both, so that error path is not modelled.
- Slopes and intercepts are exact reals. Non-finite values (NaN, infinity) are not modelled.
- `resample`: float spacing arithmetic and `scipy.ndimage.zoom` are a foreign numeric library. So `Segmentation` classifies any Hounsfield volume, not just the output of `Hounsfield.GetPixelsHu`.
- The morphology clean-up in `segment_tissues` (`binary_closing`, `binary_opening`, `remove_small_objects`) is a set of foreign library calls. Only the raw threshold masks are modelled.
- `make_mesh`, `make_mesh_from_mask`: thin wrappers over a library marching-cubes routine. The repository has no isosurface logic of its own.
- `process_dicom_data`: only sequencing, printing and fixed step sizes.
- `create_enhanced_visualization`: an HTML, CSS and JavaScript template. Its "volume" figures are vertex counts times fixed float constants.
- `main`: file writing and the fallback to demonstration meshes on any exception.
