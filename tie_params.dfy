/**
 * The reconstruction-parameter holder of PyTIE/TIE_params.py: the checks
 * its constructor makes on the through-focus series, its defaults (flip,
 * data location, rotation and translation, crop box), `reset_crop` and
 * the mask it builds.
 *
 * The multi-image mask is thresholded, eroded and smoothed with scipy; that
 * numerical pipeline is the uninterpreted `multiImageMask` operator here,
 * assumed to give a mask of the frame shape.
 */
module TieParameters {
  import opened Results
  import opened Stacks

  /** The crop box the constructor and `reset_crop` set: bottom and right are the LAST row and column. */
  function InitialCrop(h: nat, w: nat): (c: Crop)
    ensures c.top == 0 && c.left == 0
    ensures c.bottom - c.top == h - 1 && c.right - c.left == w - 1
  {
    Crop(0, h - 1, 0, w - 1)
  }

  /** A `defvals` argument that is not a list or array is wrapped into a one-element list. */
  function WrapDefvals(d: DefvalsArg): (r: seq<Option<real>>)
    ensures d.DArray? ==> |r| == |d.values| && forall i :: 0 <= i < |r| ==> r[i] == Some(d.values[i])
    ensures d.DScalar? ==> r == [Some(d.v)]
    ensures d.DNone? ==> r == [None]
  {
    match d
    case DArray(vs) => seq(|vs|, i requires 0 <= i < |vs| => Some(vs[i]))
    case DScalar(v) => [Some(v)]
    case DNone => [None]
  }

  /** The asserted link between the number of images and of defocus values. */
  predicate DefocusCountOk(numFiles: nat, numDefvals: nat) {
    if numFiles == 1 then numDefvals == 1 else numFiles == 2 * numDefvals + 1
  }

  /**
   * A series that passes the count check has an odd number of images, with
   * `num_files // 2` defocus values on either side of the in-focus image.
   */
  lemma DefocusCountShape(numFiles: nat, numDefvals: nat)
    requires DefocusCountOk(numFiles, numDefvals)
    ensures numFiles % 2 == 1 && numFiles / 2 < numFiles
    ensures numFiles > 1 ==> numFiles / 2 == numDefvals && numDefvals >= 1
  {
  }

  /** `self.flip`: the explicit argument when given, else whether there is a flip stack. */
  function FlipSetting(flip: Option<bool>, flipstack: Stack): (r: bool)
    ensures flip.Some? ==> r == flip.value
    ensures flip.None? ==> (r <==> flipstack != [])
  {
    if flip.Some? then flip.value else flipstack != []
  }

  /** `self.data_loc`: './' when absent or empty, otherwise the argument with a trailing '/'. */
  function DataLocation(dataLoc: Option<string>): (r: string)
    ensures r != [] && r[|r| - 1] == '/'
    ensures dataLoc.None? || dataLoc.value == [] ==> r == "./"
    ensures dataLoc.Some? && dataLoc.value != [] ==>
      |dataLoc.value| <= |r| <= |dataLoc.value| + 1 && r[..|dataLoc.value|] == dataLoc.value
    ensures dataLoc.Some? && dataLoc.value != [] && dataLoc.value[|dataLoc.value| - 1] == '/' ==> r == dataLoc.value
  {
    if dataLoc.None? || dataLoc.value == [] then "./"
    else if dataLoc.value[|dataLoc.value| - 1] == '/' then dataLoc.value
    else dataLoc.value + "/"
  }

  /** `(a + b) / 2` pixel by pixel. */
  function Average(a: Image, b: Image): (r: Image)
    requires |a| == |b| && forall y :: 0 <= y < |a| ==> |a[y]| == |b[y]|
    ensures |r| == |a| && forall y :: 0 <= y < |a| ==> |r[y]| == |a[y]|
    ensures forall y, x :: 0 <= y < |a| && 0 <= x < |a[y]| ==> r[y][x] == (a[y][x] + b[y][x]) / 2.0
  {
    seq(|a|, y requires 0 <= y < |a| => seq(|a[y]|, x requires 0 <= x < |a[y]| => (a[y][x] + b[y][x]) / 2.0))
  }

  /** `a * b` pixel by pixel. */
  function Times(a: Image, b: Image): (r: Image)
    requires |a| == |b| && forall y :: 0 <= y < |a| ==> |a[y]| == |b[y]|
    ensures |r| == |a| && forall y :: 0 <= y < |a| ==> |r[y]| == |a[y]|
    ensures forall y, x :: 0 <= y < |a| && 0 <= x < |a[y]| ==> r[y][x] == a[y][x] * b[y][x]
  {
    seq(|a|, y requires 0 <= y < |a| => seq(|a[y]|, x requires 0 <= x < |a[y]| => a[y][x] * b[y][x]))
  }

  /** `np.ones(shape)` */
  function Ones(h: nat, w: nat): (r: Image)
    ensures HasShape(r, h, w)
    ensures forall y, x :: 0 <= y < h && 0 <= x < w ==> r[y][x] == 1.0
  {
    seq(h, y => seq(w, x => 1.0))
  }

  /**
   * The images the multi-image mask is built from, as written:
   * `np.concatenate([imstack, flipstack])`.  With no flip stack the second
   * operand is the empty list, a 1-D array, and concatenating it with the
   * 3-D image stack fails.
   */
  function MaskStackAsWritten(imstack: Stack, flipstack: Stack): (r: Result<Stack>)
    ensures flipstack == [] ==> r == Err(ValueError)
    ensures r.Ok? ==> r.value == imstack + flipstack && Regular(imstack + flipstack)
  {
    if flipstack == [] then Err(ValueError)
    else if !Regular(imstack + flipstack) then Err(ValueError)
    else Ok(imstack + flipstack)
  }

  /**
   * The images the multi-image mask is evidently meant to use: the unflip
   * stack followed by the flip stack, if any; images of different shapes
   * still fail to concatenate.
   */
  function MaskStack(imstack: Stack, flipstack: Stack): (r: Result<Stack>)
    ensures r.Ok? <==> Regular(imstack + flipstack)
    ensures r.Ok? ==> r.value == imstack + flipstack
    ensures r.Err? ==> r.error == ValueError
  {
    if !Regular(imstack + flipstack) then Err(ValueError) else Ok(imstack + flipstack)
  }

  /** An unflip-only series of three images of one shape: the mask cannot be built as written. */
  lemma UnflipOnlyMaskFails(img: Image, h: nat, w: nat)
    requires HasShape(img, h, w)
    ensures Regular([img, img, img])
    ensures MaskStackAsWritten([img, img, img], []) == Err(ValueError)
    ensures MaskStack([img, img, img], []) == Ok([img, img, img])
  {
    assert [img, img, img] + [] == [img, img, img];
    var s := [img, img, img];
    if h > 0 {
      assert |img[0]| == w;
    }
    forall i | 0 <= i < 3 ensures HasShape(s[i], FrameShape(s).0, FrameShape(s).1) {
      assert s[i] == img;
    }
  }

  /** With a flip stack, the written and the intended concatenation agree. */
  lemma MaskStackAgrees(imstack: Stack, flipstack: Stack)
    requires flipstack != []
    ensures MaskStackAsWritten(imstack, flipstack) == MaskStack(imstack, flipstack)
  {
  }

  /** The numerical part of the multi-image mask (threshold, erosion, smoothing), uninterpreted. */
  datatype MaskOps = MaskOps(multiImageMask: (Stack, real) -> Image)

  /** The mask of a stack of (h, w) images has shape (h, w). */
  ghost predicate MaskShapes(m: MaskOps) {
    forall s, t, h: nat, w: nat :: IsStack(s, h, w) ==> HasShape(m.multiImageMask(s, t), h, w)
  }

  /**
   * What the constructor raises, in order: a ragged stack has no shape;
   * the image/defocus count assertion; formatting a missing scale; with
   * the `flip` argument set, the length assertion and averaging the two
   * in-focus images, which the model refuses whenever their shapes differ
   * (numpy also accepts shapes that broadcast); the mask's concatenation.
   */
  function InitCheck(imstack: ArrayArg, flipstack: Stack, defvals: DefvalsArg, scale: Option<real>,
                     flip: Option<bool>, noMask: bool): (r: Outcome)
    ensures r == Pass ==> Regular(AsStack(imstack)) && DefocusCountOk(|AsStack(imstack)|, |WrapDefvals(defvals)|)
    ensures r == Pass ==> scale.Some?
    ensures r == Pass && flip == Some(true) ==> |flipstack| == |AsStack(imstack)|
    ensures !Regular(AsStack(imstack)) ==> r == Fail(ValueError)
    ensures Regular(AsStack(imstack)) && !DefocusCountOk(|AsStack(imstack)|, |WrapDefvals(defvals)|) ==>
      r == Fail(AssertionError)
  {
    var ims := AsStack(imstack);
    var n := |ims|;
    var (h, w) := FrameShape(ims);
    if !Regular(ims) then Fail(ValueError)
    else if !DefocusCountOk(n, |WrapDefvals(defvals)|) then Fail(AssertionError)
    else if scale.None? then Fail(TypeError)
    else if flip == Some(true) && |ims| != |flipstack| then Fail(AssertionError)
    else if flip == Some(true) && !HasShape(flipstack[n / 2], h, w) then Fail(ValueError)
    else if !noMask && n != 1 && MaskStackAsWritten(ims, flipstack).Err? then Fail(ValueError)
    else Pass
  }

  /**
   * The constructor itself refuses an unflip-only series of three images
   * of one shape when a mask is wanted, which the intended concatenation
   * would accept.
   */
  lemma UnflipOnlyConstructionFails(img: Image, h: nat, w: nat, defval: real, scale: real)
    requires HasShape(img, h, w)
    ensures InitCheck(Stack3D([img, img, img]), [], DArray([defval]), Some(scale), None, false) == Fail(ValueError)
    ensures MaskStack(AsStack(Stack3D([img, img, img])), []).Ok?
  {
    UnflipOnlyMaskFails(img, h, w);
  }

  class TieParams {
    const maskOps: MaskOps
    var imstack: Stack
    var flipstack: Stack
    /** `self.shape`, the (y, x) shape of the images. */
    var shapeH: nat
    var shapeW: nat
    var defvals: seq<Option<real>>
    var numFiles: nat
    var scale: real
    var rotation: real
    var xTransl: int
    var yTransl: int
    var flip: bool
    var dataLoc: string
    var infocus: Image
    var crop: Crop
    var mask: Image

    ghost predicate Valid()
      reads this
    {
      MaskShapes(maskOps)
      && numFiles == |imstack| && numFiles >= 1
      && IsStack(imstack, shapeH, shapeW)
      && HasShape(infocus, shapeH, shapeW)
      && HasShape(mask, shapeH, shapeW)
    }

    /** `TIE_params.__init__` for arguments `InitCheck` accepts. */
    constructor (maskOps: MaskOps, imstack: ArrayArg, flipstack: Stack, defvals: DefvalsArg,
                 scale: Option<real>, flip: Option<bool>, dataLoc: Option<string>, noMask: bool)
      requires MaskShapes(maskOps)
      requires InitCheck(imstack, flipstack, defvals, scale, flip, noMask) == Pass
      ensures Valid()
      ensures this.maskOps == maskOps
      ensures this.imstack == AsStack(imstack) && this.flipstack == flipstack
      ensures (shapeH, shapeW) == FrameShape(AsStack(imstack))
      ensures this.defvals == WrapDefvals(defvals)
      ensures numFiles == |AsStack(imstack)| && DefocusCountOk(numFiles, |this.defvals|)
      ensures this.scale == scale.value
      ensures rotation == 0.0 && xTransl == 0 && yTransl == 0
      ensures this.flip == FlipSetting(flip, flipstack)
      ensures this.dataLoc == DataLocation(dataLoc)
      ensures crop == InitialCrop(shapeH, shapeW)
      ensures var inf := this.imstack[numFiles / 2];
        var inf0 := if flip == Some(true) then Average(inf, flipstack[numFiles / 2]) else inf;
        if noMask || numFiles == 1 then mask == Ones(shapeH, shapeW) && infocus == inf0
        else mask == maskOps.multiImageMask(this.imstack + flipstack, 0.0) && infocus == Times(inf0, mask)
    {
      var ims := AsStack(imstack);
      this.maskOps := maskOps;
      this.imstack := ims;
      this.flipstack := flipstack;
      shapeH, shapeW := FrameShape(ims).0, FrameShape(ims).1;
      this.defvals := WrapDefvals(defvals);
      numFiles := |ims|;
      this.scale := scale.value;
      rotation, xTransl, yTransl := 0.0, 0, 0;
      this.flip := FlipSetting(flip, flipstack);
      this.dataLoc := DataLocation(dataLoc);
      var inf := ims[|ims| / 2];
      assert HasShape(inf, FrameShape(ims).0, FrameShape(ims).1);
      if flip == Some(true) {
        infocus := Average(inf, flipstack[|ims| / 2]);
      } else {
        infocus := inf;
      }
      crop := InitialCrop(FrameShape(ims).0, FrameShape(ims).1);
      mask := Ones(FrameShape(ims).0, FrameShape(ims).1);
      new;
      if !noMask {
        var _ := MakeMask(0.0);
      }
    }

    /** `reset_crop()`: back to the constructor's crop box. */
    method ResetCrop()
      requires Valid()
      modifies this`crop
      ensures Valid()
      ensures crop == InitialCrop(shapeH, shapeW)
    {
      crop := Crop(0, shapeH - 1, 0, shapeW - 1);
    }

    /**
     * `make_mask(threshold=threshold)`: an all-ones mask for a single image;
     * otherwise the mask of both stacks, which also multiplies the in-focus
     * image (again on every call).
     */
    method MakeMask(threshold: real) returns (r: Outcome)
      requires Valid()
      modifies this`mask, this`infocus
      ensures Valid()
      ensures numFiles == 1 ==> r == Pass && mask == Ones(shapeH, shapeW) && infocus == old(infocus)
      ensures numFiles != 1 && MaskStackAsWritten(imstack, flipstack).Err? ==>
        r == Fail(ValueError) && mask == old(mask) && infocus == old(infocus)
      ensures numFiles != 1 && MaskStackAsWritten(imstack, flipstack).Ok? ==>
        r == Pass && mask == maskOps.multiImageMask(imstack + flipstack, threshold)
        && infocus == Times(old(infocus), mask)
    {
      if |imstack| == 1 {
        mask := Ones(shapeH, shapeW);
        return Pass;
      }
      match MaskStackAsWritten(imstack, flipstack)
      case Err(e) =>
        r := Fail(e);
      case Ok(ims) =>
        assert IsStack(ims, shapeH, shapeW) by {
          assert ims[0] == imstack[0] && HasShape(ims[0], shapeH, shapeW);
          forall i | 0 <= i < |ims| ensures HasShape(ims[i], shapeH, shapeW) {
            assert HasShape(ims[i], FrameShape(ims).0, FrameShape(ims).1);
          }
        }
        mask := maskOps.multiImageMask(ims, threshold);
        infocus := Times(infocus, mask);
        r := Pass;
    }
  }
}
