/**
 * Image stacks and the stage functions of the defocused-dataset pipeline
 * (PyLorentz/dataset/defocused_dataset.py), as pure functions of their
 * inputs.  The class in defocused_dataset.dfy is proved against them.
 *
 * An image is a 2-D array of reals, a stack a sequence of images.  The
 * numerical operators the pipeline calls (ndi.rotate without reshaping,
 * filter_hotpix, a median filter of size (m, m) in the image plane, and
 * the bandpass filter) are not modelled: they are carried as function
 * values in an `Operators` record and treated as uninterpreted.
 */
module Stacks {
  import opened Results
  import PySeq

  type Image = seq<seq<real>>
  type Stack = seq<Image>

  /** The crop rectangle `[top:bottom, left:right]` of the transform record. */
  datatype Crop = Crop(top: int, bottom: int, left: int, right: int)

  /** The transform record: rotation angle and crop rectangle. */
  datatype Transforms = Transforms(rotation: real, crop: Crop)

  /** The bandpass filter parameters the filter stage records. */
  datatype FilterParams = FilterParams(
    qLowpass: Option<real>,
    qHighpass: Option<real>,
    filterType: string,
    butterworthOrder: int)

  /** The numerical per-image operators, uninterpreted. */
  datatype Operators = Operators(
    rotate: (Image, real) -> Image,
    hotpix: (Image, bool) -> Image,
    median: (Image, int) -> Image,
    bandpass: (Image, FilterParams) -> Image)

  /** `img` has `h` rows of `w` pixels each. */
  predicate HasShape(img: Image, h: nat, w: nat) {
    |img| == h && forall r :: 0 <= r < h ==> |img[r]| == w
  }

  /** Every image of `s` has shape (h, w). */
  predicate IsStack(s: Stack, h: nat, w: nat) {
    forall i :: 0 <= i < |s| ==> HasShape(s[i], h, w)
  }

  /** The operators keep the shape of their image, as the real ones do. */
  ghost predicate ShapePreserving(ops: Operators) {
    (forall img, a, h: nat, w: nat :: HasShape(img, h, w) ==> HasShape(ops.rotate(img, a), h, w))
    && (forall img, fast, h: nat, w: nat :: HasShape(img, h, w) ==> HasShape(ops.hotpix(img, fast), h, w))
    && (forall img, m, h: nat, w: nat :: HasShape(img, h, w) ==> HasShape(ops.median(img, m), h, w))
    && (forall img, p, h: nat, w: nat :: HasShape(img, h, w) ==> HasShape(ops.bandpass(img, p), h, w))
  }

  /** The transform record BaseDataset resets to: no rotation, the whole frame. */
  function DefaultTransforms(h: nat, w: nat): Transforms {
    Transforms(0.0, Crop(0, h, 0, w))
  }

  // ---------------------------------------------------------------
  // Array arguments
  // ---------------------------------------------------------------

  /** An `images` argument: one 2-D image (wrapped into a stack of one) or a stack. */
  datatype ArrayArg = Image2D(image: Image) | Stack3D(stack: Stack)

  function AsStack(a: ArrayArg): Stack {
    match a
    case Image2D(img) => [img]
    case Stack3D(s) => s
  }

  /** A `defvals` argument: a bare number, an array of numbers, or None. */
  datatype DefvalsArg = DScalar(v: real) | DArray(values: seq<real>) | DNone

  /** The frame shape numpy reports for a stack: that of its first image. */
  function FrameShape(s: Stack): (nat, nat) {
    var h := if s == [] then 0 else |s[0]|;
    var w := if s == [] || s[0] == [] then 0 else |s[0][0]|;
    (h, w)
  }

  /** `np.array(images)` builds a 3-D array: every image has the same shape. */
  predicate Regular(s: Stack) {
    IsStack(s, FrameShape(s).0, FrameShape(s).1)
  }

  /** `Regular` holds exactly when all images share some common shape. */
  lemma RegularIffCommonShape(s: Stack)
    ensures Regular(s) <==> exists h: nat, w: nat :: IsStack(s, h, w)
  {
    if h: nat, w: nat :| IsStack(s, h, w) {
      if s != [] {
        assert HasShape(s[0], h, w);
        if h > 0 {
          assert |s[0][0]| == w;
        } else {
          forall i | 0 <= i < |s| ensures HasShape(s[i], FrameShape(s).0, FrameShape(s).1) {
            assert HasShape(s[i], h, w);
          }
        }
      }
    }
  }

  // ---------------------------------------------------------------
  // Stage functions
  // ---------------------------------------------------------------

  /** `img[top:bottom, left:right]` with numpy's slice semantics on both axes. */
  function CropImage(img: Image, c: Crop): Image {
    var rows := PySeq.Slice(img, c.top, c.bottom);
    seq(|rows|, i requires 0 <= i < |rows| => PySeq.Slice(rows[i], c.left, c.right))
  }

  /** `images[:, top:bottom, left:right]` */
  function CroppedStack(s: Stack, c: Crop): (r: Stack)
    ensures |r| == |s|
  {
    seq(|s|, i requires 0 <= i < |s| => CropImage(s[i], c))
  }

  /** Every image rotated by `angle` when the angle is non-zero, else the stack as it is. */
  function Rotated(ops: Operators, s: Stack, angle: real): (r: Stack)
    ensures |r| == |s|
  {
    if angle != 0.0 then seq(|s|, i requires 0 <= i < |s| => ops.rotate(s[i], angle)) else s
  }

  /** The transform stage: rotate, then crop every image to the same rectangle. */
  function Transformed(ops: Operators, base: Stack, t: Transforms): (r: Stack)
    ensures |r| == |base|
  {
    CroppedStack(Rotated(ops, base, t.rotation), t.crop)
  }

  function HotpixFiltered(ops: Operators, s: Stack, fast: bool): (r: Stack)
    ensures |r| == |s|
  {
    seq(|s|, i requires 0 <= i < |s| => ops.hotpix(s[i], fast))
  }

  /** The median filter of size (1, m, m): each image filtered on its own. */
  function MedianFiltered(ops: Operators, s: Stack, m: int): (r: Stack)
    ensures |r| == |s|
  {
    seq(|s|, i requires 0 <= i < |s| => ops.median(s[i], m))
  }

  /** The preprocessing stage applied to the raw stack. */
  function Preprocessed(ops: Operators, raw: Stack, hotpix: bool, median: Option<int>, fast: bool): (r: Stack)
    ensures |r| == |raw|
  {
    var h := if hotpix then HotpixFiltered(ops, raw, fast) else raw;
    if median.Some? then MedianFiltered(ops, h, median.value) else h
  }

  /** Every image bandpass filtered with the same parameters. */
  function Filtered(ops: Operators, s: Stack, p: FilterParams): (r: Stack)
    ensures |r| == |s|
  {
    seq(|s|, i requires 0 <= i < |s| => ops.bandpass(s[i], p))
  }

  predicate InRange(ids: seq<nat>, n: nat) {
    forall j :: 0 <= j < |ids| ==> ids[j] < n
  }

  /** `filtered_ims`: the selected images of `src`, filtered, in the order selected. */
  function FilterSelected(ops: Operators, src: Stack, ids: seq<nat>, p: FilterParams): (r: Stack)
    requires InRange(ids, |src|)
    ensures |r| == |ids|
  {
    seq(|ids|, j requires 0 <= j < |ids| => ops.bandpass(src[ids[j]], p))
  }

  /** `s[ids] = vals`: numpy's fancy assignment, one index after the other. */
  function Scatter(s: Stack, ids: seq<nat>, vals: Stack): (r: Stack)
    requires |ids| == |vals| && InRange(ids, |s|)
    ensures |r| == |s|
    decreases |ids|
  {
    if ids == [] then s else Scatter(s[ids[0] := vals[0]], ids[1..], vals[1..])
  }

  /** `np.zeros_like(s)` */
  function ZerosLike(s: Stack): (r: Stack)
    ensures |r| == |s|
  {
    seq(|s|, i requires 0 <= i < |s| =>
      seq(|s[i]|, y requires 0 <= y < |s[i]| => seq(|s[i][y]|, x => 0.0)))
  }

  function AllIndices(n: nat): (r: seq<nat>)
    ensures |r| == n && InRange(r, n)
  {
    seq(n, i => i)
  }

  // ---------------------------------------------------------------
  // The filter stage's `idx` argument
  // ---------------------------------------------------------------

  /** What `filter(idx=...)` was given: None, an int, a list/array of ints, or anything else. */
  datatype IndexArg = NoIndex | OneIndex(i: int) | IndexList(list: seq<int>) | OtherIndex

  /** Numpy's integer-array indexing of a stack of `n` images. */
  function ResolveIndices(list: seq<int>, n: nat): (r: Result<seq<nat>>)
    ensures r.Ok? <==> forall j :: 0 <= j < |list| ==> -(n as int) <= list[j] < n
    ensures r.Ok? ==> |r.value| == |list| && InRange(r.value, n)
    ensures r.Ok? ==> forall j :: 0 <= j < |list| ==>
      r.value[j] == if list[j] < 0 then list[j] + n else list[j]
    ensures r.Err? ==> r.error == IndexError
  {
    if list == [] then Ok([])
    else if !(-(n as int) <= list[0] < n) then Err(IndexError)
    else
      match ResolveIndices(list[1..], n)
      case Err(e) => Err(e)
      case Ok(rest) => Ok([if list[0] < 0 then list[0] + n else list[0]] + rest)
  }

  /** The indices `filter` works on, or the error it raises before changing anything. */
  function NormalizeIndices(idx: IndexArg, n: nat): (r: Result<seq<nat>>)
    ensures r.Ok? ==> InRange(r.value, n)
    ensures idx.OtherIndex? <==> r == Err(TypeError)
    ensures idx.NoIndex? ==> r.Ok? && |r.value| == n && forall k :: 0 <= k < n ==> r.value[k] == k
    ensures idx.OneIndex? ==> (r.Ok? <==> -(n as int) <= idx.i < n)
    ensures idx.OneIndex? && r.Ok? ==> r.value == [if idx.i < 0 then idx.i + n else idx.i]
  {
    match idx
    case NoIndex => Ok(AllIndices(n))
    case OneIndex(i) => ResolveIndices([i], n)
    case IndexList(list) => ResolveIndices(list, n)
    case OtherIndex => Err(TypeError)
  }

  // ---------------------------------------------------------------
  // Properties of the stages
  // ---------------------------------------------------------------

  /**
   * Filtering a selection writes the filtered image of `src` at every
   * selected index and leaves every other index as it was.
   */
  lemma {:induction false} ScatterSelected(ops: Operators, s: Stack, src: Stack, ids: seq<nat>, p: FilterParams)
    requires |s| == |src| && InRange(ids, |src|)
    ensures forall k :: 0 <= k < |s| ==>
      Scatter(s, ids, FilterSelected(ops, src, ids, p))[k]
        == if k in ids then ops.bandpass(src[k], p) else s[k]
    decreases |ids|
  {
    if ids != [] {
      var s' := s[ids[0] := ops.bandpass(src[ids[0]], p)];
      var vals := FilterSelected(ops, src, ids, p);
      assert vals[1..] == FilterSelected(ops, src, ids[1..], p);
      assert Scatter(s, ids, vals) == Scatter(s', ids[1..], vals[1..]);
      ScatterSelected(ops, s', src, ids[1..], p);
      forall k | 0 <= k < |s|
        ensures Scatter(s, ids, vals)[k] == if k in ids then ops.bandpass(src[k], p) else s[k]
      {
        assert k in ids <==> k == ids[0] || k in ids[1..];
      }
    }
  }

  /**
   * Filtering every index replaces the whole stack by the filtered source,
   * whatever it held before: the replay in `apply_transforms` gives what
   * `filter(idx=None)` with the recorded parameters gives.
   */
  lemma FilterAllIsFiltered(ops: Operators, s: Stack, src: Stack, p: FilterParams)
    requires |s| == |src|
    ensures Scatter(s, AllIndices(|src|), FilterSelected(ops, src, AllIndices(|src|), p))
      == Filtered(ops, src, p)
  {
    var ids := AllIndices(|src|);
    ScatterSelected(ops, s, src, ids, p);
    forall k | 0 <= k < |s| ensures k in ids {
      assert ids[k] == k;
    }
  }

  /** Cropping to the whole frame gives back every image unchanged. */
  lemma FullFrameCropIsIdentity(s: Stack, h: nat, w: nat)
    requires IsStack(s, h, w)
    ensures CroppedStack(s, Crop(0, h, 0, w)) == s
  {
    forall i | 0 <= i < |s| ensures CropImage(s[i], Crop(0, h, 0, w)) == s[i] {
      var img := s[i];
      assert PySeq.Slice(img, 0, h) == img;
      forall y | 0 <= y < h ensures PySeq.Slice(img[y], 0, w) == img[y] {
        assert |img[y]| == w;
      }
    }
  }

  /** The preprocessing stage keeps the shape of every image. */
  lemma PreprocessedShape(ops: Operators, raw: Stack, hotpix: bool, median: Option<int>, fast: bool, h: nat, w: nat)
    requires ShapePreserving(ops) && IsStack(raw, h, w)
    ensures IsStack(Preprocessed(ops, raw, hotpix, median, fast), h, w)
  {
    var hs := if hotpix then HotpixFiltered(ops, raw, fast) else raw;
    assert IsStack(hs, h, w) by {
      if hotpix {
        forall i | 0 <= i < |raw| ensures HasShape(hs[i], h, w) {
          assert HasShape(raw[i], h, w);
          assert hs[i] == ops.hotpix(raw[i], fast);
        }
      }
    }
    if median.Some? {
      forall i | 0 <= i < |hs| ensures HasShape(MedianFiltered(ops, hs, median.value)[i], h, w) {
        assert HasShape(hs[i], h, w);
      }
    }
  }

  /**
   * With the transform record at its defaults the transform stage is the
   * identity: after `preprocess()` and `reset_transforms()` the cropped
   * stack equals the preprocessed one.
   */
  lemma ResetTransformsKeepsPreprocessed(ops: Operators, raw: Stack, hotpix: bool, median: Option<int>,
                                          fast: bool, h: nat, w: nat)
    requires ShapePreserving(ops) && IsStack(raw, h, w)
    ensures Transformed(ops, Preprocessed(ops, raw, hotpix, median, fast), DefaultTransforms(h, w))
         == Preprocessed(ops, raw, hotpix, median, fast)
  {
    var pre := Preprocessed(ops, raw, hotpix, median, fast);
    PreprocessedShape(ops, raw, hotpix, median, fast, h, w);
    assert Rotated(ops, pre, 0.0) == pre;
    FullFrameCropIsIdentity(pre, h, w);
  }

  /**
   * Cropping with a rectangle inside the frame gives every image the
   * shape (bottom - top, right - left), and keeps the number of images.
   */
  lemma TransformedShape(ops: Operators, base: Stack, t: Transforms, h: nat, w: nat)
    requires ShapePreserving(ops) && IsStack(base, h, w)
    requires 0 <= t.crop.top <= t.crop.bottom <= h && 0 <= t.crop.left <= t.crop.right <= w
    ensures |Transformed(ops, base, t)| == |base|
    ensures IsStack(Transformed(ops, base, t), t.crop.bottom - t.crop.top, t.crop.right - t.crop.left)
  {
    var rot := Rotated(ops, base, t.rotation);
    forall i | 0 <= i < |rot| ensures HasShape(rot[i], h, w) {
      assert HasShape(base[i], h, w);
      if t.rotation != 0.0 {
        assert rot[i] == ops.rotate(base[i], t.rotation);
      }
    }
    var c := t.crop;
    forall i | 0 <= i < |rot|
      ensures HasShape(CropImage(rot[i], c), c.bottom - c.top, c.right - c.left)
    {
      var rows := PySeq.Slice(rot[i], c.top, c.bottom);
      assert rows == rot[i][c.top..c.bottom];
      forall y | 0 <= y < |rows| ensures |PySeq.Slice(rows[y], c.left, c.right)| == c.right - c.left {
        assert |rows[y]| == w;
      }
    }
  }

  /** Preprocessing never mixes images: image `i` of the result depends on raw image `i` alone. */
  lemma PreprocessedPerImage(ops: Operators, raw: Stack, hotpix: bool, median: Option<int>, fast: bool, i: nat)
    requires i < |raw|
    ensures Preprocessed(ops, raw, hotpix, median, fast)[i]
         == Preprocessed(ops, [raw[i]], hotpix, median, fast)[0]
  {
  }
}
