/** Intensity-threshold tissue classification, the first half of
    `segment_tissues`: three elementwise comparisons on a Hounsfield
    volume, each giving a boolean mask of the volume's shape. The
    morphological clean-up applied to the masks afterwards is not part
    of this module. */
module Segmentation {
  import Int16
  import Hounsfield

  /** A Hounsfield volume indexed by (slice, row, column). */
  type Volume = Hounsfield.Volume
  /** A boolean occupancy volume. */
  type Mask = seq<seq<seq<bool>>>

  /** Bone: strictly above this value. */
  const SkullAbove: int := 350
  /** Gray and white matter: between these values, both inclusive. */
  const BrainLow: int := 20
  const BrainHigh: int := 80
  /** Contrast-filled vessels: between these values, both inclusive. */
  const VesselLow: int := 100
  const VesselHigh: int := 200

  predicate IsSkull(v: int) { v > SkullAbove }
  predicate IsBrain(v: int) { BrainLow <= v && v <= BrainHigh }
  predicate IsVessel(v: int) { VesselLow <= v && v <= VesselHigh }

  /** A mask has the volume's number of slices, and each slice and row
      of it has the length of the corresponding slice and row. */
  predicate SameShape(m: Mask, image: Volume) {
    && |m| == |image|
    && (forall k :: 0 <= k < |m| ==> |m[k]| == |image[k]|)
    && (forall k, i :: 0 <= k < |m| && 0 <= i < |m[k]| ==> |m[k][i]| == |image[k][i]|)
  }

  /** The voxels of `image` that satisfy `inClass`. */
  function Threshold(image: Volume, inClass: int -> bool): (m: Mask)
    ensures SameShape(m, image)
    ensures forall k, i, j :: 0 <= k < |m| && 0 <= i < |m[k]| && 0 <= j < |m[k][i]| ==>
              m[k][i][j] == inClass(image[k][i][j])
  {
    seq(|image|, k requires 0 <= k < |image| =>
      seq(|image[k]|, i requires 0 <= i < |image[k]| =>
        seq(|image[k][i]|, j requires 0 <= j < |image[k][i]| => inClass(image[k][i][j]))))
  }

  /** `image > 350`. */
  function SkullMask(image: Volume): (m: Mask)
    ensures SameShape(m, image)
    ensures forall k, i, j :: 0 <= k < |m| && 0 <= i < |m[k]| && 0 <= j < |m[k][i]| ==>
              (m[k][i][j] <==> image[k][i][j] > 350)
  {
    Threshold(image, IsSkull)
  }

  /** `(image >= 20) & (image <= 80)`. */
  function BrainMask(image: Volume): (m: Mask)
    ensures SameShape(m, image)
    ensures forall k, i, j :: 0 <= k < |m| && 0 <= i < |m[k]| && 0 <= j < |m[k][i]| ==>
              (m[k][i][j] <==> 20 <= image[k][i][j] <= 80)
  {
    Threshold(image, IsBrain)
  }

  /** `(image >= 100) & (image <= 200)`. */
  function VesselMask(image: Volume): (m: Mask)
    ensures SameShape(m, image)
    ensures forall k, i, j :: 0 <= k < |m| && 0 <= i < |m[k]| && 0 <= j < |m[k][i]| ==>
              (m[k][i][j] <==> 100 <= image[k][i][j] <= 200)
  {
    Threshold(image, IsVessel)
  }

  /** The three raw masks, before any morphological clean-up. */
  datatype TissueMasks = TissueMasks(skull: Mask, brain: Mask, vessels: Mask)

  /** The thresholding step of `segment_tissues`. */
  function ThresholdTissues(image: Volume): (t: TissueMasks)
    ensures SameShape(t.skull, image) && SameShape(t.brain, image) && SameShape(t.vessels, image)
    ensures forall k, i, j :: 0 <= k < |image| && 0 <= i < |image[k]| && 0 <= j < |image[k][i]| ==>
              && (t.skull[k][i][j] <==> IsSkull(image[k][i][j]))
              && (t.brain[k][i][j] <==> IsBrain(image[k][i][j]))
              && (t.vessels[k][i][j] <==> IsVessel(image[k][i][j]))
  {
    TissueMasks(SkullMask(image), BrainMask(image), VesselMask(image))
  }

  /** Before the clean-up the three masks are pairwise disjoint: the
      ranges [20, 80], [100, 200] and (350, +inf) do not overlap. */
  lemma ThresholdMasksDisjoint(image: Volume)
    ensures forall k, i, j :: 0 <= k < |image| && 0 <= i < |image[k]| && 0 <= j < |image[k][i]| ==>
              && !(ThresholdTissues(image).skull[k][i][j] && ThresholdTissues(image).brain[k][i][j])
              && !(ThresholdTissues(image).skull[k][i][j] && ThresholdTissues(image).vessels[k][i][j])
              && !(ThresholdTissues(image).brain[k][i][j] && ThresholdTissues(image).vessels[k][i][j])
  {
  }

  /** Every voxel outside the scan of a slice whose int16 intercept is
      below 20 (typically -1024) is in none of the three masks when the
      converted values are classified without resampling. */
  lemma OutsideScanIsUnclassified(raw: int, slope: real, intercept: real)
    requires Int16.Wrap(raw) == Hounsfield.OutsideScan
    requires Int16.FromReal(intercept) < BrainLow
    ensures var hu := Hounsfield.HuVoxel(raw, slope, intercept);
            !IsSkull(hu) && !IsBrain(hu) && !IsVessel(hu)
  {
    Hounsfield.OutsideScanBecomesIntercept(raw, slope, intercept);
  }
}
