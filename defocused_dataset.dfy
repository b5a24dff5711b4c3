/**
 * The staged image-preparation pipeline of PyLorentz/dataset/defocused_dataset.py.
 *
 * A `DefocusedDataset` owns a raw stack that never changes, the defocus
 * value of every image, three derived caches (preprocessed, cropped and
 * filtered), the current view `images`, and three stage flags.  Each stage
 * rebuilds its cache from the right upstream one; the methods below are
 * proved against the stage functions of module Stacks.
 *
 * The base class supplies the transform record and its reset, the
 * interactive ROI primitive and the bandpass filter; the model carries them
 * as the `transforms` field, the `chosen` argument of SelectROI and the
 * `bandpass` operator.
 */
module DefocusedDatasets {
  import opened Results
  import opened Stacks
  import PySeq

  // ---------------------------------------------------------------
  // Arguments and the checks the property setters make
  // ---------------------------------------------------------------

  /** An `energy` argument: an int or float, or a value of any other type. */
  datatype EnergyArg = Numeric(val: real) | NonNumeric

  /**
   * The `images` setter: `np.array` refuses images of different shapes,
   * and the new stack must have as many images as there are defocus values.
   */
  function AssignImages(a: ArrayArg, count: nat): (r: Result<Stack>)
    ensures r.Ok? <==> Regular(AsStack(a)) && |AsStack(a)| == count
    ensures r.Ok? ==> r.value == AsStack(a) && |r.value| == count
    ensures r.Err? ==> r.error == ValueError
  {
    if !Regular(AsStack(a)) then Err(ValueError)
    else if |AsStack(a)| != count then Err(ValueError)
    else Ok(AsStack(a))
  }

  /** The `defvals` setter: a number is wrapped, None has no length, the count must match. */
  function AssignDefvals(dfs: DefvalsArg, count: nat): (r: Result<seq<real>>)
    ensures dfs.DNone? ==> r == Err(TypeError)
    ensures r.Ok? <==> (dfs.DScalar? && count == 1) || (dfs.DArray? && |dfs.values| == count)
    ensures r.Ok? ==> |r.value| == count
    ensures r.Ok? && dfs.DScalar? ==> r.value == [dfs.v]
    ensures r.Ok? && dfs.DArray? ==> r.value == dfs.values
    ensures r.Err? && !dfs.DNone? ==> r.error == ValueError
  {
    match dfs
    case DNone => Err(TypeError)
    case DScalar(v) => if count != 1 then Err(ValueError) else Ok([v])
    case DArray(vs) => if |vs| != count then Err(ValueError) else Ok(vs)
  }

  /** The `energy` setter. */
  function AssignEnergy(val: EnergyArg): (r: Result<real>)
    ensures r.Ok? <==> val.Numeric? && val.val > 0.0
    ensures r.Ok? ==> r.value == val.val
    ensures val.NonNumeric? ==> r == Err(TypeError)
    ensures val.Numeric? && val.val <= 0.0 ==> r == Err(ValueError)
  {
    match val
    case NonNumeric => Err(TypeError)
    case Numeric(v) => if v <= 0.0 then Err(ValueError) else Ok(v)
  }

  /**
   * What `__init__` raises: a ragged stack fails when it is converted to an
   * array; then `images` is assigned before `defvals`, so a count mismatch
   * (or a missing `defvals`) surfaces on the `defvals` assignment.
   */
  function InitCheck(images: ArrayArg, defvals: DefvalsArg): (r: Outcome)
    ensures r == Pass <==> Regular(AsStack(images)) && AssignDefvals(defvals, |AsStack(images)|).Ok?
    ensures !Regular(AsStack(images)) ==> r == Fail(ValueError)
    ensures Regular(AsStack(images)) && defvals.DNone? ==> r == Fail(TypeError)
    ensures Regular(AsStack(images)) && defvals.DArray? && |defvals.values| != |AsStack(images)| ==> r == Fail(ValueError)
  {
    if !Regular(AsStack(images)) then Fail(ValueError)
    else
      match AssignDefvals(defvals, |AsStack(images)|)
      case Err(e) => Fail(e)
      case Ok(_) => Pass
  }

  /** The recorded preprocessing parameters (`_filters["hotpix"]`, `_filters["median"]`). */
  datatype PreprocessParams = PreprocessParams(hotpix: bool, median: Option<int>)

  /**
   * The loop of `filter`: the selected images of `src` (`input_ims`), each
   * bandpass filtered into a zero-initialised stack of the same shape.
   */
  method FilterImages(ops: Operators, src: Stack, ids: seq<nat>, p: FilterParams) returns (filteredIms: Stack)
    requires InRange(ids, |src|)
    ensures filteredIms == FilterSelected(ops, src, ids, p)
  {
    var inputIms := seq(|ids|, j requires 0 <= j < |ids| => src[ids[j]]);
    filteredIms := ZerosLike(inputIms);
    var i := 0;
    while i < |inputIms|
      invariant 0 <= i <= |inputIms| == |filteredIms|
      invariant forall k :: 0 <= k < i ==> filteredIms[k] == ops.bandpass(inputIms[k], p)
    {
      filteredIms := filteredIms[i := ops.bandpass(inputIms[i], p)];
      i := i + 1;
    }
    assert forall j :: 0 <= j < |ids| ==> filteredIms[j] == FilterSelected(ops, src, ids, p)[j];
  }

  // ---------------------------------------------------------------
  // The dataset
  // ---------------------------------------------------------------

  class DefocusedDataset {
    const ops: Operators
    /** `_orig_images`: the raw stack, taken once at construction. */
    const origImages: Stack
    /** `_orig_shape` */
    const origH: nat
    const origW: nat

    var images: Stack
    var defvals: seq<real>
    var preprocessedCache: Option<Stack>
    var croppedCache: Option<Stack>
    var filteredCache: Option<Stack>
    var preprocessed: bool
    var cropped: bool
    var filtered: bool
    var transforms: Transforms
    var transformsModified: bool
    var filterParams: Option<FilterParams>
    var preprocessRecord: Option<PreprocessParams>
    var scale: Option<real>
    /** The plain `beam_energy` attribute `__init__` assigns. */
    var beamEnergy: Option<real>
    /** `_beam_energy`, behind the validated `energy` property. */
    var energy: Option<real>
    var simulated: bool

    /** The `fast` flag of the last preprocessing, which the source does not record. */
    ghost var preprocessFast: bool
    /** The transform record the cropped cache was last built with. */
    ghost var appliedTransforms: Transforms

    /** The base of the transform stage: the preprocessed cache if preprocessing ran, else raw. */
    function Base(): Stack
      reads this
    {
      if preprocessed && preprocessedCache.Some? then preprocessedCache.value else origImages
    }

    /** The shapes, counts and flag/cache links every method keeps. */
    ghost predicate Coherent()
      reads this
    {
      ShapePreserving(ops)
      && IsStack(origImages, origH, origW)
      && |images| == |defvals| == |origImages|
      && (preprocessed <==> preprocessedCache.Some?)
      && (preprocessed ==> IsStack(preprocessedCache.value, origH, origW)
                           && |preprocessedCache.value| == |origImages|)
      && (cropped <==> croppedCache.Some?)
      && (cropped ==> |croppedCache.value| == |origImages|)
      && (filteredCache.Some? ==> filtered && cropped && |filteredCache.value| == |origImages|)
      && (filtered ==> filterParams.Some?)
    }

    /** The preprocessed cache is the preprocessing of the raw stack with the recorded parameters. */
    ghost predicate PreprocessedCurrent()
      reads this
    {
      preprocessed ==>
        preprocessedCache.Some? && preprocessRecord.Some?
        && preprocessedCache.value
           == Preprocessed(ops, origImages, preprocessRecord.value.hotpix, preprocessRecord.value.median, preprocessFast)
    }

    /** The cropped cache is the transform stage applied to the current base. */
    ghost predicate CroppedCurrent()
      reads this
    {
      cropped ==> croppedCache == Some(Transformed(ops, Base(), appliedTransforms))
    }

    ghost predicate Valid()
      reads this
    {
      Coherent() && PreprocessedCurrent() && CroppedCurrent()
    }

    /** `__init__`, for arguments `InitCheck` accepts. */
    constructor (ops: Operators, images: ArrayArg, scale: Option<real>, defvals: DefvalsArg,
                 beamEnergy: Option<real>, simulated: bool)
      requires ShapePreserving(ops)
      requires InitCheck(images, defvals) == Pass
      ensures Valid()
      ensures this.ops == ops && this.images == AsStack(images) && origImages == AsStack(images)
      ensures (origH, origW) == FrameShape(AsStack(images))
      ensures Ok(this.defvals) == AssignDefvals(defvals, |AsStack(images)|)
      ensures !preprocessed && !cropped && !filtered && !transformsModified
      ensures preprocessedCache == None && croppedCache == None && filteredCache == None
      ensures transforms == DefaultTransforms(origH, origW)
      ensures filterParams == None && preprocessRecord == None
      ensures this.scale == scale && this.beamEnergy == beamEnergy && energy == None
      ensures this.simulated == simulated
    {
      var s := AsStack(images);
      this.ops := ops;
      this.images := s;
      origImages := s;
      origH, origW := FrameShape(s).0, FrameShape(s).1;
      preprocessedCache, croppedCache, filteredCache := None, None, None;
      this.defvals := AssignDefvals(defvals, |s|).value;
      this.beamEnergy := beamEnergy;
      this.simulated := simulated;
      this.scale := scale;
      energy := None;
      preprocessed, cropped, filtered := false, false, false;
      transforms := DefaultTransforms(FrameShape(s).0, FrameShape(s).1);
      transformsModified := false;
      filterParams, preprocessRecord := None, None;
      preprocessFast := false;
      appliedTransforms := DefaultTransforms(FrameShape(s).0, FrameShape(s).1);
    }

    /** A deep copy: a fresh dataset holding the same state. */
    constructor Clone(d: DefocusedDataset)
      ensures SameState(d)
    {
      ops, origImages, origH, origW := d.ops, d.origImages, d.origH, d.origW;
      images, defvals := d.images, d.defvals;
      preprocessedCache, croppedCache, filteredCache := d.preprocessedCache, d.croppedCache, d.filteredCache;
      preprocessed, cropped, filtered := d.preprocessed, d.cropped, d.filtered;
      transforms, transformsModified := d.transforms, d.transformsModified;
      filterParams, preprocessRecord := d.filterParams, d.preprocessRecord;
      scale, beamEnergy, energy, simulated := d.scale, d.beamEnergy, d.energy, d.simulated;
      preprocessFast, appliedTransforms := d.preprocessFast, d.appliedTransforms;
    }

    ghost predicate SameState(d: DefocusedDataset)
      reads this, d
    {
      ops == d.ops && origImages == d.origImages && origH == d.origH && origW == d.origW
      && images == d.images && defvals == d.defvals
      && preprocessedCache == d.preprocessedCache && croppedCache == d.croppedCache
      && filteredCache == d.filteredCache
      && preprocessed == d.preprocessed && cropped == d.cropped && filtered == d.filtered
      && transforms == d.transforms && transformsModified == d.transformsModified
      && filterParams == d.filterParams && preprocessRecord == d.preprocessRecord
      && scale == d.scale && beamEnergy == d.beamEnergy && energy == d.energy && simulated == d.simulated
      && preprocessFast == d.preprocessFast && appliedTransforms == d.appliedTransforms
    }

    /** `copy()` */
    method Copy() returns (c: DefocusedDataset)
      requires Valid()
      ensures fresh(c) && c.Valid() && c.SameState(this)
    {
      c := new DefocusedDataset.Clone(this);
    }

    /** The `images` setter. */
    method SetImages(a: ArrayArg) returns (r: Outcome)
      requires Valid()
      modifies this`images
      ensures Valid()
      ensures r == Pass <==> Regular(AsStack(a)) && |AsStack(a)| == |defvals|
      ensures r != Pass ==> r == Fail(ValueError) && images == old(images)
      ensures r == Pass ==> images == AsStack(a)
    {
      match AssignImages(a, |defvals|)
      case Err(e) =>
        r := Fail(e);
      case Ok(s) =>
        images := s;
        r := Pass;
    }

    /** The `defvals` setter. */
    method SetDefvals(dfs: DefvalsArg) returns (r: Outcome)
      requires Valid()
      modifies this`defvals
      ensures Valid()
      ensures r == Pass <==> AssignDefvals(dfs, |images|).Ok?
      ensures r != Pass ==> r == Fail(AssignDefvals(dfs, |images|).error) && defvals == old(defvals)
      ensures r == Pass ==> Ok(defvals) == AssignDefvals(dfs, |images|)
    {
      match AssignDefvals(dfs, |images|)
      case Err(e) =>
        r := Fail(e);
      case Ok(vs) =>
        defvals := vs;
        r := Pass;
    }

    /** The `energy` setter. */
    method SetEnergy(val: EnergyArg) returns (r: Outcome)
      requires Valid()
      modifies this`energy
      ensures Valid()
      ensures r == Pass <==> AssignEnergy(val).Ok?
      ensures r != Pass ==> r == Fail(AssignEnergy(val).error) && energy == old(energy)
      ensures r == Pass ==> energy == Some(val.val)
    {
      match AssignEnergy(val)
      case Err(e) =>
        r := Fail(e);
      case Ok(v) =>
        energy := Some(v);
        r := Pass;
    }

    /**
     * `apply_transforms()`: rotate (only for a non-zero angle) and crop the
     * base into the cropped cache; if filtering ran, re-filter EVERY cropped
     * image with the recorded parameters, whatever subset was filtered before.
     */
    method ApplyTransforms()
      requires Coherent()
      modifies this`images, this`croppedCache, this`filteredCache, this`cropped,
               this`transformsModified, this`appliedTransforms
      ensures Coherent() && CroppedCurrent()
      ensures old(PreprocessedCurrent()) ==> PreprocessedCurrent()
      ensures cropped && !transformsModified && appliedTransforms == transforms
      ensures croppedCache == Some(Transformed(ops, Base(), transforms))
      ensures filtered ==> filteredCache == Some(Filtered(ops, croppedCache.value, filterParams.value))
                           && images == filteredCache.value
      ensures !filtered ==> filteredCache == old(filteredCache) && images == croppedCache.value
    {
      var base := if preprocessed then preprocessedCache.value else origImages;
      var crop, ims := TransformStage(base, transforms, if filtered then filterParams else None);
      images, croppedCache := ims, Some(crop);
      if filtered {
        filteredCache := Some(ims);
      }
      transformsModified, cropped, appliedTransforms := false, true, transforms;
    }

    /**
     * The computation of `apply_transforms`: rotate each image (only for a
     * non-zero angle), crop, and band-pass filter each cropped image when
     * filter parameters are given.
     */
    method TransformStage(base: Stack, t: Transforms, filter: Option<FilterParams>)
      returns (crop: Stack, ims: Stack)
      ensures crop == Transformed(ops, base, t)
      ensures filter.Some? ==> ims == Filtered(ops, crop, filter.value)
      ensures filter.None? ==> ims == crop
    {
      ims := base;
      if t.rotation != 0.0 {
        ims := RotateEach(ims, t.rotation);
      }
      ims := CroppedStack(ims, t.crop);
      crop := ims;
      if filter.Some? {
        ims := BandpassEach(ims, filter.value);
      }
    }

    /** The rotation loop of `apply_transforms`: every image rotated by `angle`. */
    method RotateEach(ims: Stack, angle: real) returns (r: Stack)
      requires angle != 0.0
      ensures r == Rotated(ops, ims, angle)
    {
      r := ims;
      var a0 := 0;
      while a0 < |r|
        invariant 0 <= a0 <= |r| == |ims|
        invariant forall k :: 0 <= k < a0 ==> r[k] == ops.rotate(ims[k], angle)
        invariant forall k :: a0 <= k < |r| ==> r[k] == ims[k]
      {
        r := r[a0 := ops.rotate(r[a0], angle)];
        a0 := a0 + 1;
      }
    }

    /** The re-filtering loop of `apply_transforms`: every image band-pass filtered with `p`. */
    method BandpassEach(ims: Stack, p: FilterParams) returns (r: Stack)
      ensures r == Filtered(ops, ims, p)
    {
      r := ims;
      var a0 := 0;
      while a0 < |r|
        invariant 0 <= a0 <= |r| == |ims|
        invariant forall k :: 0 <= k < a0 ==> r[k] == ops.bandpass(ims[k], p)
        invariant forall k :: a0 <= k < |r| ==> r[k] == ims[k]
      {
        r := r[a0 := ops.bandpass(r[a0], p)];
        a0 := a0 + 1;
      }
    }

    /**
     * `preprocess(hotpix, median_filter_size, fast)`: restart from the raw
     * stack, so repeated calls do not compound; filter hot pixels image by
     * image, apply the median filter in the image plane only, snapshot the
     * result and re-run the transform stage.
     */
    method Preprocess(hotpix: bool, median: Option<int>, fast: bool)
      requires Valid()
      modifies this`images, this`preprocessed, this`preprocessedCache, this`preprocessRecord,
               this`preprocessFast, this`croppedCache, this`filteredCache, this`cropped,
               this`transformsModified, this`appliedTransforms
      ensures Valid()
      ensures preprocessed && preprocessedCache == Some(Preprocessed(ops, origImages, hotpix, median, fast))
      ensures preprocessRecord == Some(PreprocessParams(hotpix, median))
      ensures cropped && !transformsModified && appliedTransforms == transforms
      ensures croppedCache == Some(Transformed(ops, preprocessedCache.value, transforms))
      ensures filtered ==> filteredCache == Some(Filtered(ops, croppedCache.value, filterParams.value))
                           && images == filteredCache.value
      ensures !filtered ==> filteredCache == old(filteredCache) && images == croppedCache.value
    {
      images := PreprocessStage(origImages, hotpix, median, fast);
      PreprocessedShape(ops, origImages, hotpix, median, fast, origH, origW);
      preprocessed := true;
      preprocessedCache := Some(images);
      preprocessFast := fast;
      ApplyTransforms();
      preprocessRecord := Some(PreprocessParams(hotpix, median));
    }

    /**
     * The image work of `preprocess` on a copy of the raw stack: hot pixels
     * removed image by image when asked, then the median filter.
     */
    method PreprocessStage(raw: Stack, hotpix: bool, median: Option<int>, fast: bool) returns (ims: Stack)
      ensures ims == Preprocessed(ops, raw, hotpix, median, fast)
    {
      ims := raw;
      if hotpix {
        ims := HotpixEach(ims, fast);
      }
      if median.Some? {
        ims := MedianFiltered(ops, ims, median.value);
      }
    }

    /** The hot-pixel loop of `preprocess`: each image filtered in turn. */
    method HotpixEach(ims: Stack, fast: bool) returns (r: Stack)
      ensures r == HotpixFiltered(ops, ims, fast)
    {
      r := ims;
      var i := 0;
      while i < |r|
        invariant 0 <= i <= |r| == |ims|
        invariant forall k :: 0 <= k < i ==> r[k] == ops.hotpix(ims[k], fast)
        invariant forall k :: i <= k < |r| ==> r[k] == ims[k]
      {
        r := r[i := ops.hotpix(r[i], fast)];
        i := i + 1;
      }
    }

    /**
     * `reset_transforms()`: back to no rotation and the whole frame, then the
     * transform stage, which then gives back its base unchanged.
     */
    method ResetTransforms()
      requires Valid()
      modifies this`transforms, this`images, this`croppedCache, this`filteredCache, this`cropped,
               this`transformsModified, this`appliedTransforms
      ensures Valid()
      ensures transforms == DefaultTransforms(origH, origW)
      ensures cropped && croppedCache == Some(Base())
      ensures filtered ==> filteredCache == Some(Filtered(ops, Base(), filterParams.value))
                           && images == filteredCache.value
      ensures !filtered ==> images == Base()
    {
      transforms := DefaultTransforms(origH, origW);
      ApplyTransforms();
      if preprocessed {
        var rec := preprocessRecord.value;
        ResetTransformsKeepsPreprocessed(ops, origImages, rec.hotpix, rec.median, preprocessFast, origH, origW);
      } else {
        assert Rotated(ops, origImages, 0.0) == origImages;
        FullFrameCropIsIdentity(origImages, origH, origW);
      }
    }

    /**
     * `filter(q_lowpass, q_highpass, filter_type, butterworth_order, idx)`.
     * The input comes from the cropped cache if the transform stage ran,
     * else the preprocessed cache, else raw.  Only the selected indices of
     * the filtered cache and of `images` change.  Before any transform
     * stage the filtered cache is allocated from the absent cropped cache,
     * so the call fails after it has recorded the parameters.
     */
    method Filter(p: FilterParams, idx: IndexArg) returns (r: Outcome)
      requires Valid()
      modifies this`images, this`filteredCache, this`filtered, this`filterParams
      ensures Valid()
      ensures NormalizeIndices(idx, |origImages|).Err? ==>
        r == Fail(NormalizeIndices(idx, |origImages|).error) && unchanged(this)
      ensures NormalizeIndices(idx, |origImages|).Ok? ==> filtered && filterParams == Some(p)
      ensures NormalizeIndices(idx, |origImages|).Ok? && !cropped ==>
        r == Fail(IndexError) && images == old(images) && filteredCache == old(filteredCache)
      ensures NormalizeIndices(idx, |origImages|).Ok? && cropped ==>
        var ids := NormalizeIndices(idx, |origImages|).value;
        var filteredIms := FilterSelected(ops, croppedCache.value, ids, p);
        r == Pass
        && images == Scatter(old(images), ids, filteredIms)
        && filteredCache == Some(Scatter(old(filteredCache).GetOr(ZerosLike(croppedCache.value)), ids, filteredIms))
    {
      var ni := NormalizeIndices(idx, |images|);
      if ni.Err? {
        return Fail(ni.error);
      }
      r := FilterAt(ni.value, p);
    }

    /** The body of `filter` once the indices are normalised. */
    method FilterAt(ids: seq<nat>, p: FilterParams) returns (r: Outcome)
      requires Valid() && InRange(ids, |origImages|)
      modifies this`images, this`filteredCache, this`filtered, this`filterParams
      ensures Valid()
      ensures filtered && filterParams == Some(p)
      ensures !cropped ==> r == Fail(IndexError) && images == old(images) && filteredCache == old(filteredCache)
      ensures cropped ==>
        var filteredIms := FilterSelected(ops, croppedCache.value, ids, p);
        r == Pass
        && images == Scatter(old(images), ids, filteredIms)
        && filteredCache == Some(Scatter(old(filteredCache).GetOr(ZerosLike(croppedCache.value)), ids, filteredIms))
    {
      var src := if cropped then croppedCache.value
                 else if preprocessed then preprocessedCache.value
                 else origImages;
      var filteredIms := FilterImages(ops, src, ids, p);
      filtered, filterParams := true, Some(p);
      if filteredCache.None? && croppedCache.None? {
        return Fail(IndexError);
      }
      var target := filteredCache.GetOr(ZerosLike(croppedCache.value));
      assert src == croppedCache.value;
      filteredCache, images := Some(Scatter(target, ids, filteredIms)), Scatter(images, ids, filteredIms);
      assert Coherent();
      r := Pass;
    }

    /**
     * The image `select_ROI(idx, image)` shows: an explicit image must have
     * the original frame shape; otherwise image `idx` of the base, passed
     * through the last bandpass filter if filtering ran.
     */
    function ROIPreview(idx: int, image: Option<Image>): (r: Result<Image>)
      reads this
      requires Valid()
      ensures image.Some? ==> (r.Ok? <==> HasShape(image.value, origH, origW))
      ensures image.Some? && r.Ok? ==> r.value == image.value
      ensures image.Some? && r.Err? ==> r.error == ValueError
      ensures image.None? ==> (r.Ok? <==> -|origImages| <= idx < |origImages|)
      ensures image.None? && r.Ok? ==>
        var k := if idx < 0 then idx + |origImages| else idx;
        r.value == if filtered then ops.bandpass(Base()[k], filterParams.value) else Base()[k]
    {
      match image
      case Some(img) =>
        if HasShape(img, origH, origW) then Ok(img) else Err(ValueError)
      case None =>
        var src := if preprocessed then preprocessedCache.value else origImages;
        match PySeq.Index(src, idx)
        case Err(e) => Err(e)
        case Ok(im) => Ok(if filtered then ops.bandpass(im, filterParams.value) else im)
    }

    /**
     * `select_ROI(idx, image)`: the rectangle the user draws on the preview
     * (`chosen`) is written into the transform record; the transform stage
     * is not re-run.
     */
    method SelectROI(idx: int, image: Option<Image>, chosen: Crop) returns (r: Result<Image>)
      requires Valid()
      modifies this`transforms
      ensures Valid()
      ensures r == ROIPreview(idx, image)
      ensures transforms == if r.Ok? then old(transforms).(crop := chosen) else old(transforms)
    {
      r := ROIPreview(idx, image);
      if r.Ok? {
        transforms := transforms.(crop := chosen);
      }
    }
  }

  // ---------------------------------------------------------------
  // load (in-memory images)
  // ---------------------------------------------------------------

  /** The `images` argument of `load`: an in-memory array or a list of file paths. */
  datatype LoadImages = ImageArray(data: ArrayArg) | FileList(paths: seq<string>)

  /** The parsed metadata entries `load` reads (`dict.get`, so absent is None). */
  datatype Metadata = Metadata(
    defocusValues: Option<DefvalsArg>,
    scale: Option<real>,
    beamEnergy: Option<real>,
    simulated: Option<bool>)

  /** Keyword arguments of `load`: `None` when the key was not passed. */
  datatype LoadKwargs = LoadKwargs(
    defvals: Option<DefvalsArg>,
    scale: Option<Option<real>>,
    beamEnergy: Option<Option<real>>,
    simulated: Option<bool>)

  /** The constructor arguments `load` settles on. */
  datatype LoadArgs = LoadArgs(
    images: ArrayArg,
    scale: Option<real>,
    defvals: DefvalsArg,
    beamEnergy: Option<real>,
    simulated: bool)

  predicate IsEmptyArray(a: ArrayArg) {
    match a
    case Image2D(img) => img == []
    case Stack3D(s) => s == []
  }

  /**
   * The argument resolution of `load`: `images[0]` must exist, a list of
   * paths is not supported, an explicit keyword wins over the metadata
   * entry, and the defocus values must be given one way or the other.
   */
  function ResolveLoad(images: LoadImages, metadata: Option<Metadata>, kwargs: LoadKwargs): (r: Result<LoadArgs>)
    ensures images.FileList? ==> r == Err(if images.paths == [] then IndexError else NotImplementedError)
    ensures images.ImageArray? && IsEmptyArray(images.data) ==> r == Err(IndexError)
    ensures r.Ok? ==> images.ImageArray? && r.value.images == images.data && !r.value.defvals.DNone?
    ensures r.Ok? && kwargs.defvals.Some? ==> r.value.defvals == kwargs.defvals.value
    ensures r.Ok? && kwargs.scale.Some? ==> r.value.scale == kwargs.scale.value
    ensures r.Ok? && kwargs.beamEnergy.Some? ==> r.value.beamEnergy == kwargs.beamEnergy.value
    ensures r.Ok? && kwargs.simulated.Some? ==> r.value.simulated == kwargs.simulated.value
    ensures r.Ok? && kwargs.defvals.None? ==> metadata.Some? && metadata.value.defocusValues == Some(r.value.defvals)
    ensures r.Ok? && kwargs.scale.None? ==> r.value.scale == if metadata.Some? then metadata.value.scale else None
    ensures r.Ok? && kwargs.simulated.None? && metadata.None? ==> !r.value.simulated
    ensures images.ImageArray? && !IsEmptyArray(images.data) ==>
      (r.Err? <==> kwargs.defvals.GetOr(if metadata.Some? then metadata.value.defocusValues.GetOr(DNone) else DNone).DNone?)
    ensures r.Err? && images.ImageArray? && !IsEmptyArray(images.data) ==> r.error == ValueError
  {
    match images
    case FileList(paths) => if paths == [] then Err(IndexError) else Err(NotImplementedError)
    case ImageArray(a) =>
      if IsEmptyArray(a) then Err(IndexError)
      else
        var md := metadata.GetOr(Metadata(None, None, None, None));
        var defvals := kwargs.defvals.GetOr(md.defocusValues.GetOr(DNone));
        if defvals.DNone? then Err(ValueError)
        else
          Ok(LoadArgs(
            a,
            kwargs.scale.GetOr(md.scale),
            defvals,
            kwargs.beamEnergy.GetOr(md.beamEnergy),
            kwargs.simulated.GetOr(md.simulated.GetOr(false))))
  }

  /** `DefocusedDataset.load` for in-memory images and already parsed metadata. */
  method Load(ops: Operators, images: LoadImages, metadata: Option<Metadata>, kwargs: LoadKwargs)
    returns (r: Result<DefocusedDataset>)
    requires ShapePreserving(ops)
    ensures ResolveLoad(images, metadata, kwargs).Err? ==> r == Err(ResolveLoad(images, metadata, kwargs).error)
    ensures ResolveLoad(images, metadata, kwargs).Ok? ==>
      var a := ResolveLoad(images, metadata, kwargs).value;
      (r.Ok? <==> InitCheck(a.images, a.defvals) == Pass)
      && (r.Err? ==> r == Err(InitCheck(a.images, a.defvals).error))
      && (r.Ok? ==> fresh(r.value) && r.value.Valid() && r.value.images == AsStack(a.images)
                    && r.value.scale == a.scale && r.value.beamEnergy == a.beamEnergy
                    && r.value.simulated == a.simulated
                    && Ok(r.value.defvals) == AssignDefvals(a.defvals, |AsStack(a.images)|))
  {
    var res := ResolveLoad(images, metadata, kwargs);
    if res.Err? {
      return Err(res.error);
    }
    var a := res.value;
    var check := InitCheck(a.images, a.defvals);
    if check.Fail? {
      return Err(check.error);
    }
    var d := new DefocusedDataset(ops, a.images, a.scale, a.defvals, a.beamEnergy, a.simulated);
    r := Ok(d);
  }
}
