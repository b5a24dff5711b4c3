/**
 * The index and string arithmetic of PyTIE/TIE_reconstruct.py: the even
 * symmetric extension `symmetrize`, the reconstruction dimensions `TIE`
 * derives from the crop box, and the names `save_results` gives the files
 * it writes.  The Fourier reconstruction itself is not modelled.
 */
module TieReconstruct {
  import opened Results
  import opened Stacks
  import PySeq

  /** Every row of `img` is as long as the first: a 2-D array. */
  predicate Rectangular(img: Image) {
    forall y :: 0 <= y < |img| ==> |img[y]| == |img[0]|
  }

  function Width(img: Image): nat {
    if img == [] then 0 else |img[0]|
  }

  /**
   * `symmetrize(image)`: the (2M, 2N) even extension of an (M, N) image.
   * The top-left block is the image, the bottom-left block the image
   * flipped upside down (row M + i is image row M - 1 - i), and the right
   * half of every row the left half flipped left to right.
   */
  function Symmetrize(image: Image): (r: Image)
    requires Rectangular(image)
    ensures HasShape(r, 2 * |image|, 2 * Width(image))
    ensures forall i :: 0 <= i < |image| ==> r[i][..Width(image)] == image[i]
    ensures forall k :: |image| <= k < 2 * |image| ==> r[k][..Width(image)] == image[2 * |image| - 1 - k]
    ensures forall i :: 0 <= i < 2 * |image| ==>
      r[i][Width(image)..] == PySeq.Reverse(r[i][..Width(image)])
  {
    var m := |image|;
    seq(2 * m, i requires 0 <= i < 2 * m =>
      var row := if i < m then image[i] else image[2 * m - 1 - i];
      row + PySeq.Reverse(row))
  }

  /** Two rows with the same left half and a mirrored right half are equal. */
  lemma MirroredRowsEqual(a: seq<real>, b: seq<real>, n: nat)
    requires |a| == |b| == 2 * n
    requires a[..n] == b[..n]
    requires a[n..] == PySeq.Reverse(a[..n]) && b[n..] == PySeq.Reverse(b[..n])
    ensures a == b
  {
    assert a == a[..n] + a[n..] && b == b[..n] + b[n..];
  }

  /** The extension is also symmetric top to bottom: its lower half is its upper half reversed. */
  lemma SymmetrizeVerticalMirror(image: Image)
    requires Rectangular(image)
    ensures Symmetrize(image)[|image|..] == PySeq.Reverse(Symmetrize(image)[..|image|])
  {
    var r := Symmetrize(image);
    var m := |image|;
    forall i | m <= i < 2 * m ensures r[i] == r[2 * m - 1 - i] {
      SymmetrizeRowMirror(image, i - m);
    }
    MirrorFromRows(r, m);
  }

  /** A sequence of 2m items whose item i equals item 2m - 1 - i has its second half mirror the first. */
  lemma MirrorFromRows<T>(r: seq<T>, m: nat)
    requires |r| == 2 * m
    requires forall i :: m <= i < 2 * m ==> r[i] == r[2 * m - 1 - i]
    ensures r[m..] == PySeq.Reverse(r[..m])
  {
    var lower, upper := r[m..], PySeq.Reverse(r[..m]);
    forall k | 0 <= k < m ensures lower[k] == upper[k] {
      assert lower[k] == r[m + k];
    }
  }

  /** Row m + k of the extension repeats row m - 1 - k. */
  lemma SymmetrizeRowMirror(image: Image, k: nat)
    requires Rectangular(image) && k < |image|
    ensures Symmetrize(image)[|image| + k] == Symmetrize(image)[|image| - 1 - k]
  {
    var r := Symmetrize(image);
    var m, n := |image|, Width(image);
    var j := m - 1 - k;
    assert r[m + k][..n] == image[j] == r[j][..n];
    MirroredRowsEqual(r[m + k], r[j], n);
  }

  /**
   * `tmp2[:dim_y, :dim_x]` after a symmetrized reconstruction: the top-left
   * block of the extension gives the image back.
   */
  lemma CropOfSymmetrize(image: Image)
    requires Rectangular(image)
    ensures CropImage(Symmetrize(image), Crop(0, |image|, 0, Width(image))) == image
  {
    var r := Symmetrize(image);
    var m, n := |image|, Width(image);
    var c := CropImage(r, Crop(0, m, 0, n));
    assert PySeq.Slice(r, 0, m) == r[..m];
    forall i | 0 <= i < m ensures c[i] == image[i] {
      assert c[i] == r[i][..n];
    }
  }

  /** `dim_y, dim_x` in `TIE`: the crop box's extent, doubled for a symmetrized reconstruction. */
  function ReconDims(c: Crop, sym: bool): (d: (int, int))
    ensures !sym ==> d == (c.bottom - c.top, c.right - c.left)
    ensures sym ==> d.0 == 2 * (c.bottom - c.top) && d.1 == 2 * (c.right - c.left)
  {
    var dimY, dimX := c.bottom - c.top, c.right - c.left;
    if sym then (2 * dimY, 2 * dimX) else (dimY, dimX)
  }

  /**
   * For a crop box inside an (h, w) frame, the reconstruction dimensions
   * are the shape of the cropped image, or of its symmetric extension.
   */
  lemma ReconDimsMatchImage(img: Image, h: nat, w: nat, c: Crop, sym: bool)
    requires HasShape(img, h, w)
    requires 0 <= c.top < c.bottom <= h && 0 <= c.left <= c.right <= w
    ensures var cropped := CropImage(img, c);
      Rectangular(cropped)
      && (!sym ==> HasShape(cropped, ReconDims(c, sym).0, ReconDims(c, sym).1))
      && (sym ==> HasShape(Symmetrize(cropped), ReconDims(c, sym).0, ReconDims(c, sym).1))
  {
    var cropped := CropImage(img, c);
    assert PySeq.Slice(img, c.top, c.bottom) == img[c.top..c.bottom];
    forall y | 0 <= y < |cropped| ensures |cropped[y]| == c.right - c.left {
      assert |img[c.top + y]| == w;
    }
    assert Width(cropped) == c.right - c.left;
  }

  // ---------------------------------------------------------------
  // save_results: file names
  // ---------------------------------------------------------------

  /** `dataname` with a trailing '_' appended when it is missing. */
  function NormalizeDataname(name: string): (r: string)
    ensures r != [] && r[|r| - 1] == '_'
    ensures name != [] && name[|name| - 1] == '_' ==> r == name
    ensures name == [] || name[|name| - 1] != '_' ==> r == name + "_"
  {
    if name != [] && name[|name| - 1] == '_' then name else name + "_"
  }

  /** Normalizing twice is normalizing once. */
  lemma NormalizeDatanameIdempotent(name: string)
    ensures NormalizeDataname(NormalizeDataname(name)) == NormalizeDataname(name)
  {
  }

  /** `dataname[:-1]`, written into the parameter file, recovers a name that had no trailing '_'. */
  lemma DatanameRoundTrip(name: string)
    requires name == [] || name[|name| - 1] != '_'
    ensures NormalizeDataname(name)[..|NormalizeDataname(name)| - 1] == name
  {
  }

  /**
   * `f"{dataname}{defval:g}_{key}.tiff"` as written.  With `long_deriv`
   * the defocus value has been replaced by the string 'long', and the
   * `g` format code is not defined for strings: the call fails.  `fmtG`
   * formats a number with `g`.
   */
  function SaveNameAsWritten(dataname: string, defval: real, longDeriv: bool, key: string,
                             fmtG: real -> string): (r: Result<string>)
    ensures longDeriv <==> r == Err(ValueError)
    ensures r.Ok? ==> r.value == NormalizeDataname(dataname) + fmtG(defval) + "_" + key + ".tiff"
  {
    if longDeriv then Err(ValueError)
    else Ok(NormalizeDataname(dataname) + fmtG(defval) + "_" + key + ".tiff")
  }

  /**
   * The file name evidently intended: `dataname_<defval>_<key>.tiff`, with
   * 'long' in place of the defocus value for a longitudinal derivative.
   */
  function SaveName(dataname: string, defval: real, longDeriv: bool, key: string,
                    fmtG: real -> string): string
  {
    var tag := if longDeriv then "long" else fmtG(defval);
    NormalizeDataname(dataname) + tag + "_" + key + ".tiff"
  }

  /** The two agree except for a longitudinal derivative, where only the intended one has a name. */
  lemma SaveNameAgrees(dataname: string, defval: real, longDeriv: bool, key: string, fmtG: real -> string)
    ensures !longDeriv ==> SaveNameAsWritten(dataname, defval, longDeriv, key, fmtG)
                           == Ok(SaveName(dataname, defval, longDeriv, key, fmtG))
    ensures longDeriv ==> SaveNameAsWritten(dataname, defval, longDeriv, key, fmtG).Err?
  {
  }

  /** The saved file names keep the key at the end: distinct keys never collide. */
  lemma SaveNamesDistinct(dataname: string, defval: real, longDeriv: bool, k1: string, k2: string,
                          fmtG: real -> string)
    requires k1 != k2
    ensures SaveName(dataname, defval, longDeriv, k1, fmtG) != SaveName(dataname, defval, longDeriv, k2, fmtG)
  {
    var p := NormalizeDataname(dataname) + (if longDeriv then "long" else fmtG(defval)) + "_";
    var a, b := SaveName(dataname, defval, longDeriv, k1, fmtG), SaveName(dataname, defval, longDeriv, k2, fmtG);
    assert a == p + k1 + ".tiff" && b == p + k2 + ".tiff";
    if |k1| != |k2| {
      assert |a| != |b|;
    } else {
      var i :| 0 <= i < |k1| && k1[i] != k2[i];
      assert a[|p| + i] == k1[i] && b[|p| + i] == k2[i];
    }
  }
}
