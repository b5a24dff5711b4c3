/**
 * The helpers of the GUI's main program that do not touch a widget:
 * the validators that turn the text of the alignment parameter fields
 * into FIJI's values, the path helpers used when naming windows and
 * saving transforms, the timer and clamp logic behind the rotation,
 * shift and mask-size inputs, the listbox index table of the
 * reconstruction tab and the bounding box of a drawn mask.
 */
module GuiMain {
  import opened Results
  import opened PyText
  import PySeq
  import GuiUtil

  // ---------------------------------------------------------------
  // load_ls_sift_params
  // ---------------------------------------------------------------

  /** The text of the Linear SIFT alignment fields, as the GUI holds it. */
  datatype SiftInputs = SiftInputs(
    igb: string, spso: string, minIm: string, maxIm: string, fds: string, fdob: string,
    cncr: string, maxAlErr: string, inlierRat: string, expTransf: string, interp: string)

  /** The converted Linear SIFT parameters handed to the FIJI macro. */
  datatype SiftParams = SiftParams(
    igb: real, spso: int, minIm: int, maxIm: int, fds: int, fdob: int,
    cnc: real, maxAlignErr: real, inlierRat: real, expTransf: string, interpolate: string)

  /**
   * `load_ls_sift_params(vals, image_size)`. Every failed parse and every
   * failed bound ends in the same ValueError handler, which yields None,
   * so the order in which the fields are tried does not matter. Python
   * reads `not (int(spso)) >= 1` as `not (int(spso) >= 1)`, so the steps
   * per scale octave must be at least 1.
   */
  function LoadLsSiftParams(vals: SiftInputs, imageSize: int): (r: Option<SiftParams>)
    ensures r.Some? ==>
      ParseFloat(vals.igb) == Some(r.value.igb) && ParseInt(vals.spso) == Some(r.value.spso)
      && ParseInt(vals.minIm) == Some(r.value.minIm) && ParseInt(vals.maxIm) == Some(r.value.maxIm)
      && ParseInt(vals.fds) == Some(r.value.fds) && ParseInt(vals.fdob) == Some(r.value.fdob)
      && ParseFloat(vals.cncr) == Some(r.value.cnc) && ParseFloat(vals.maxAlErr) == Some(r.value.maxAlignErr)
      && ParseFloat(vals.inlierRat) == Some(r.value.inlierRat)
      && r.value.expTransf == vals.expTransf && r.value.interpolate == vals.interp
    ensures r.Some? ==>
      0.0 < r.value.igb && 0 < r.value.minIm < r.value.maxIm <= imageSize && r.value.spso >= 1
      && r.value.fds >= 0 && r.value.fdob > 0 && 0.0 <= r.value.cnc <= 1.0
      && 0.0 < r.value.maxAlignErr && 0.0 <= r.value.inlierRat <= 1.0
    ensures (ParseFloat(vals.igb).Some? && ParseInt(vals.spso).Some? && ParseInt(vals.minIm).Some?
             && ParseInt(vals.maxIm).Some? && ParseInt(vals.fds).Some? && ParseInt(vals.fdob).Some?
             && ParseFloat(vals.cncr).Some? && ParseFloat(vals.maxAlErr).Some? && ParseFloat(vals.inlierRat).Some?
             && 0.0 < ParseFloat(vals.igb).value
             && 0 < ParseInt(vals.minIm).value < ParseInt(vals.maxIm).value <= imageSize
             && ParseInt(vals.spso).value >= 1
             && ParseInt(vals.fds).value >= 0 && ParseInt(vals.fdob).value > 0
             && 0.0 <= ParseFloat(vals.cncr).value <= 1.0 && 0.0 < ParseFloat(vals.maxAlErr).value
             && 0.0 <= ParseFloat(vals.inlierRat).value <= 1.0)
            ==> r.Some?
  {
    var igb, spso, minIm, maxIm := ParseFloat(vals.igb), ParseInt(vals.spso), ParseInt(vals.minIm), ParseInt(vals.maxIm);
    var fds, fdob := ParseInt(vals.fds), ParseInt(vals.fdob);
    var cnc, maxErr, inlier := ParseFloat(vals.cncr), ParseFloat(vals.maxAlErr), ParseFloat(vals.inlierRat);
    if igb.None? || spso.None? || minIm.None? || maxIm.None? || fds.None? || fdob.None?
       || cnc.None? || maxErr.None? || inlier.None? then None
    else if !(0.0 < igb.value) || !(0 < minIm.value < maxIm.value <= imageSize) || !(spso.value >= 1)
            || !(fds.value >= 0) || !(fdob.value > 0) || !(0.0 <= cnc.value <= 1.0)
            || !(0.0 < maxErr.value) || !(0.0 <= inlier.value <= 1.0) then None
    else
      Some(SiftParams(igb.value, spso.value, minIm.value, maxIm.value, fds.value, fdob.value,
                      cnc.value, maxErr.value, inlier.value, vals.expTransf, vals.interp))
  }

  /** A negative step count such as '-1', or '-0', is refused: the bound applies to the integer itself. */
  lemma NegativeSpsoRefused(vals: SiftInputs, imageSize: int, digits: string)
    requires digits != [] && AllDigits(digits)
    ensures LoadLsSiftParams(vals.(spso := "-" + digits), imageSize).None?
  {
    NegatedDigits(digits);
  }

  // ---------------------------------------------------------------
  // load_buj_params
  // ---------------------------------------------------------------

  /** The text of the bUnwarpJ main parameter fields. */
  datatype BujInputs = BujInputs(
    regMode: string, imgSubsf: string, initDef: string, finalDef: string,
    divW: string, curlW: string, landW: string, imgW: string, consW: string, stopThresh: string)

  /** The converted bUnwarpJ parameters handed to the FIJI macro. */
  datatype BujParams = BujParams(
    regMode: string, imgSubFactor: int, initDef: string, finalDef: string,
    divWeight: real, curlWeight: real, landmarkWeight: real, imgWeight: real, consWeight: real,
    stopThresh: real)

  /** The source's three cases of an initial deformation finer than the final one. */
  predicate DeformationRejected(initial: string, final: string) {
    (initial == "Very Fine" && (final == "Fine" || final == "Coarse" || final == "Very Coarse"))
    || (initial == "Fine" && (final == "Coarse" || final == "Very Coarse"))
    || (initial == "Coarse" && final == "Very Coarse")
  }

  /** The position of a deformation name on the scale from Very Coarse to Very Fine. */
  function DeformationRank(name: string): (r: Option<nat>)
    ensures r.Some? ==> r.value <= 3
  {
    if name == "Very Coarse" then Some(0)
    else if name == "Coarse" then Some(1)
    else if name == "Fine" then Some(2)
    else if name == "Very Fine" then Some(3)
    else None
  }

  /** The three cases are exactly the pairs whose initial deformation ranks above the final one. */
  lemma DeformationRejectedIffFiner(initial: string, final: string)
    ensures DeformationRejected(initial, final)
            <==> DeformationRank(initial).Some? && DeformationRank(final).Some?
                 && DeformationRank(initial).value > DeformationRank(final).value
  {
    assert "Very Coarse" != "Coarse" && "Very Coarse" != "Fine" && "Very Coarse" != "Very Fine";
    assert "Coarse" != "Fine" && "Coarse" != "Very Fine" && "Fine" != "Very Fine";
  }

  /** `load_buj_params`: None on a failed parse, a negative weight, a non-positive threshold or a finer initial deformation. */
  function LoadBujParams(vals: BujInputs): (r: Option<BujParams>)
    ensures r.Some? ==>
      ParseInt(vals.imgSubsf) == Some(r.value.imgSubFactor)
      && ParseFloat(vals.divW) == Some(r.value.divWeight) && ParseFloat(vals.curlW) == Some(r.value.curlWeight)
      && ParseFloat(vals.landW) == Some(r.value.landmarkWeight) && ParseFloat(vals.imgW) == Some(r.value.imgWeight)
      && ParseFloat(vals.consW) == Some(r.value.consWeight) && ParseFloat(vals.stopThresh) == Some(r.value.stopThresh)
      && r.value.regMode == vals.regMode && r.value.initDef == vals.initDef && r.value.finalDef == vals.finalDef
    ensures r.Some? ==>
      0.0 <= r.value.divWeight && 0.0 <= r.value.curlWeight && 0.0 <= r.value.landmarkWeight
      && 0.0 <= r.value.imgWeight && 0.0 <= r.value.consWeight && 0.0 < r.value.stopThresh
    ensures r.Some? && DeformationRank(vals.initDef).Some? && DeformationRank(vals.finalDef).Some?
            ==> DeformationRank(vals.initDef).value <= DeformationRank(vals.finalDef).value
    ensures (ParseInt(vals.imgSubsf).Some? && ParseFloat(vals.divW).Some? && ParseFloat(vals.curlW).Some?
             && ParseFloat(vals.landW).Some? && ParseFloat(vals.imgW).Some? && ParseFloat(vals.consW).Some?
             && ParseFloat(vals.stopThresh).Some?
             && 0.0 <= ParseFloat(vals.divW).value && 0.0 <= ParseFloat(vals.curlW).value
             && 0.0 <= ParseFloat(vals.landW).value && 0.0 <= ParseFloat(vals.imgW).value
             && 0.0 <= ParseFloat(vals.consW).value && 0.0 < ParseFloat(vals.stopThresh).value
             && !(DeformationRank(vals.initDef).Some? && DeformationRank(vals.finalDef).Some?
                  && DeformationRank(vals.initDef).value > DeformationRank(vals.finalDef).value))
            ==> r.Some?
  {
    DeformationRejectedIffFiner(vals.initDef, vals.finalDef);
    var div, curl, land := ParseFloat(vals.divW), ParseFloat(vals.curlW), ParseFloat(vals.landW);
    var img, cons, stop := ParseFloat(vals.imgW), ParseFloat(vals.consW), ParseFloat(vals.stopThresh);
    if div.None? || curl.None? || land.None? || img.None? || cons.None? || stop.None? then None
    else if !(0.0 <= div.value) || !(0.0 <= curl.value) || !(0.0 <= land.value)
            || !(0.0 <= img.value) || !(0.0 <= cons.value) || !(0.0 < stop.value) then None
    else if DeformationRejected(vals.initDef, vals.finalDef) then None
    else
      match ParseInt(vals.imgSubsf)
      case None => None
      case Some(subsf) =>
        Some(BujParams(vals.regMode, subsf, vals.initDef, vals.finalDef,
                       div.value, curl.value, land.value, img.value, cons.value, stop.value))
  }

  // ---------------------------------------------------------------
  // shorten_name
  // ---------------------------------------------------------------

  /** The text still searched after `n` rounds: each round cuts it just before the character ahead of its last '/'. */
  function CheckString(path: string, n: nat): (c: string)
    ensures |c| <= |path|
  {
    if n == 0 then path
    else
      var prev := CheckString(path, n - 1);
      PySeq.Slice(prev, 0, RFind(prev, '/') - 1)
  }

  /** Every searched text is a prefix of `path`. */
  lemma {:induction false} CheckStringIsPrefix(path: string, n: nat)
    ensures CheckString(path, n) == path[..|CheckString(path, n)|]
  {
    if n > 0 {
      CheckStringIsPrefix(path, n - 1);
    }
  }

  /**
   * The name `shorten_name(path, ind)` returns for `ind >= 1`: the part of
   * `path` after the last '/' of the text searched in the last round, or
   * all of `path` when that text has no '/'.
   */
  function ShortenedName(path: string, ind: nat): (r: string)
    requires ind >= 1
    ensures |r| <= |path| && r == path[|path| - |r|..]
    ensures r == path || path[|path| - |r| - 1] == '/'
  {
    var check := CheckString(path, ind - 1);
    var k := RFind(check, '/');
    CheckStringIsPrefix(path, ind - 1);
    assert k >= 0 ==> path[k] == check[k];
    path[k + 1..]
  }

  /** With the default `ind = 1` the short name is the text after the last '/'. */
  lemma ShortenedNameOnce(path: string)
    ensures ShortenedName(path, 1) == GuiUtil.ShortName(path)
  {
  }

  /**
   * `shorten_name(path, ind)`: each round finds the last '/' of the
   * searched text; the name is cut from `path` after the '/' of the last
   * round. With `ind <= 0` no round runs and `index` is never bound.
   */
  method ShortenName(path: string, ind: int) returns (r: Result<string>)
    ensures ind <= 0 ==> r == Err(UnboundLocalError)
    ensures ind >= 1 ==> r.Ok? && r.value == ShortenedName(path, ind)
  {
    var checkString := path;
    var index: Option<int> := None;
    var i := 0;
    while i < ind
      invariant 0 <= i <= (if ind < 0 then 0 else ind)
      invariant checkString == CheckString(path, i)
      invariant i == 0 <==> index.None?
      invariant i >= 1 ==> index == Some(CutIndex(path, i))
    {
      CutStep(path, i);
      index := Some(RFind(checkString, '/') - 1);
      checkString := PySeq.Slice(checkString, 0, index.value);
      i := i + 1;
    }
    if index.None? {
      assert ind <= 0;
      return Err(UnboundLocalError);
    }
    assert i == ind;
    ShortenedNameFrom(path, i);
    r := Ok(PySeq.Slice(path, index.value + 2, |path|));
  }

  lemma CutStep(path: string, i: nat)
    ensures CutIndex(path, i + 1) == RFind(CheckString(path, i), '/') - 1
    ensures CheckString(path, i + 1) == PySeq.Slice(CheckString(path, i), 0, CutIndex(path, i + 1))
  {
  }

  /** The `index` of round `n`: one before the last '/' of the text searched in that round. */
  function CutIndex(path: string, n: nat): (k: int)
    requires n >= 1
    ensures -2 <= k < |path| - 1
  {
    RFind(CheckString(path, n - 1), '/') - 1
  }

  lemma ShortenedNameFrom(path: string, ind: nat)
    requires ind >= 1
    ensures ShortenedName(path, ind) == PySeq.Slice(path, CutIndex(path, ind) + 2, |path|)
  {
    var k := RFind(CheckString(path, ind - 1), '/');
    assert CutIndex(path, ind) + 2 == k + 1 <= |path|;
    SliceToEnd(path, k + 1);
  }

  lemma SliceToEnd<T>(s: seq<T>, a: nat)
    requires a <= |s|
    ensures PySeq.Slice(s, a, |s|) == s[a..]
  {
  }

  // ---------------------------------------------------------------
  // skip_save
  // ---------------------------------------------------------------

  /** The file name with every 'buj_transforms/' removed, when it holds one. */
  function WithoutTransformsDir(filename: string): string {
    if Contains(filename, "buj_transforms/") then Replace(filename, "buj_transforms/", "") else filename
  }

  /**
   * The folder `skip_save` compares with the image directory: `filename`
   * up to the position of the last '/' in the name without
   * 'buj_transforms/', or nothing when that name has no '/'.
   */
  function SaveFolder(filename: string): (folder: string)
    ensures |folder| <= |filename| && folder == filename[..|folder|]
  {
    var p := RFind(WithoutTransformsDir(filename), '/');
    PySeq.Slice(filename, 0, if p >= 0 then p else 0)
  }

  /** For a name without 'buj_transforms/' the folder is the directory part before its last '/'. */
  lemma SaveFolderIsDirectory(filename: string)
    requires !Contains(filename, "buj_transforms/")
    ensures RFind(filename, '/') >= 0 ==> SaveFolder(filename) + "/" + GuiUtil.ShortName(filename) == filename
    ensures RFind(filename, '/') < 0 ==> SaveFolder(filename) == ""
  {
    var p := RFind(filename, '/');
    SaveFolderPlain(filename);
    if p >= 0 {
      ShortNameAfterLastSlash(filename);
      SplitAtSlash(filename, p);
    }
  }

  lemma SaveFolderPlain(filename: string)
    requires !Contains(filename, "buj_transforms/")
    ensures var p := RFind(filename, '/');
      SaveFolder(filename) == if p >= 0 then filename[..p] else ""
  {
    assert WithoutTransformsDir(filename) == filename;
  }

  lemma ShortNameAfterLastSlash(path: string)
    ensures GuiUtil.ShortName(path) == path[RFind(path, '/') + 1..]
  {
  }

  lemma SplitAtSlash(s: string, p: nat)
    requires p < |s| && s[p] == '/'
    ensures s[..p] + "/" + s[p + 1..] == s
  {
    assert s == s[..p] + [s[p]] + s[p + 1..];
  }

  /** Once the text is cut after its last '/', no '/' is left. */
  lemma NothingAfterLastSlash(s: string)
    requires RFind(s, '/') >= 0
    ensures RFind(s[RFind(s, '/') + 1..], '/') == -1
  {
  }

  /**
   * The inner loop of `skip_save`: cut the text after its last '/' until
   * none is left, remembering where the last cut was (0 when there was
   * no '/').
   */
  method LastCut(text: string) returns (lastIndex: int)
    ensures RFind(text, '/') >= 0 ==> lastIndex == RFind(text, '/')
    ensures RFind(text, '/') < 0 ==> lastIndex == 0
  {
    var str := text;
    var index := 0;
    lastIndex := 0;
    ghost var rounds := 0;
    while index != -1
      invariant rounds <= 2
      invariant rounds == 0 ==> index == 0 && str == text
      invariant rounds == 1 ==> index == RFind(text, '/') && lastIndex == 0
                                && (index >= 0 ==> str == text[index + 1..])
      invariant rounds == 2 ==> index == -1 && lastIndex == RFind(text, '/') >= 0
      invariant rounds == 0 || index == -1 || rounds == 1
      decreases |str| + (if index != -1 then 1 else 0)
    {
      lastIndex := index;
      index := RFind(str, '/');
      if rounds == 1 {
        NothingAfterLastSlash(text);
      }
      str := str[index + 1..];
      rounds := rounds + 1;
    }
  }

  /**
   * `skip_save(filenames, image_dir)`: the flag is raised when the
   * folder of some file name differs from `image_dir`.
   */
  method SkipSave(filenames: seq<string>, imageDir: string) returns (skip: bool)
    ensures skip <==> exists k :: 0 <= k < |filenames| && SaveFolder(filenames[k]) != imageDir
  {
    skip := false;
    for i := 0 to |filenames|
      invariant skip <==> exists k :: 0 <= k < i && SaveFolder(filenames[k]) != imageDir
    {
      var filename := filenames[i];
      var str := filename;
      if Contains(str, "buj_transforms/") {
        str := Replace(str, "buj_transforms/", "");
      }
      assert str == WithoutTransformsDir(filename);
      var lastIndex := LastCut(str);
      var folder := PySeq.Slice(filename, 0, lastIndex);
      assert folder == SaveFolder(filename);
      if folder != imageDir {
        skip := true;
      }
    }
  }

  // ---------------------------------------------------------------
  // retrieve_transform
  // ---------------------------------------------------------------

  /** The number of ticks after which an unfinished input is replaced. */
  const TimerCutoff := 45

  /**
   * `util.represents_float(s)`: `float(s)` succeeds, and every integer
   * text is accepted.
   */
  function RepresentsFloat(s: string): (r: bool)
    ensures ParseInt(s).Some? ==> r
  {
    ParseFloatOfInt(s);
    ParseFloat(s).Some?
  }

  /** The partial inputs a user may still be typing, which do not force a default at once. */
  predicate StillTyping(val: string, mask: bool) {
    if mask then val == "" || val == "."
    else val == "" || val == "-" || val == "." || val == "-."
  }

  /** None of the partial inputs a user may still be typing is a number yet. */
  lemma PartialInputsNotFloats(val: string, mask: bool)
    requires StillTyping(val, mask)
    ensures !RepresentsFloat(val)
  {
    assert Strip(val) == val;
    if val == "-" || val == "-." {
      NoUnsignedRealWithoutDigits(val[1..]);
    } else {
      NoUnsignedRealWithoutDigits(val);
    }
  }

  /** What one input becomes, with the flags it raises and whether a value has been substituted so far. */
  datatype Entry = Entry(val: string, timer: int, timerTriggered: bool, valTriggered: bool, valSet: bool)

  /** The substitution and timer step for one input, before the cutoff is checked. */
  function Substitute(val: string, timer: int, mask: bool, valSet: bool): Entry {
    if !RepresentsFloat(val) then
      if StillTyping(val, mask) then Entry(val, timer + 1, false, true, valSet)
      else Entry(if mask then "50" else "0", TimerCutoff, false, true, true)
    else if mask && ParseFloat(val).value > 100.0 then Entry("100", TimerCutoff, false, false, true)
    else if mask && ParseFloat(val).value < 1.0 then Entry("1", TimerCutoff, false, false, true)
    else Entry(val, 0, false, false, valSet)
  }

  /** One input of the loop of `retrieve_transform`, after the cutoff check. */
  function UpdateEntry(val: string, timer: int, mask: bool, valSet: bool): (e: Entry)
    ensures e.timer != TimerCutoff
  {
    var step := Substitute(val, timer, mask, valSet);
    if step.timer == TimerCutoff then
      step.(timer := 0, timerTriggered := true,
            val := if step.valSet then step.val else if mask then "50" else "0")
    else step
  }

  /** A mask size outside 1..100 is clamped to the nearest bound at once; one inside is kept and its timer cleared. */
  lemma MaskSizeClamped(val: string, timer: int, valSet: bool)
    requires RepresentsFloat(val)
    ensures ParseFloat(val).value > 100.0 ==> UpdateEntry(val, timer, true, valSet) == Entry("100", 0, true, false, true)
    ensures ParseFloat(val).value < 1.0 ==> UpdateEntry(val, timer, true, valSet) == Entry("1", 0, true, false, true)
    ensures 1.0 <= ParseFloat(val).value <= 100.0
            ==> UpdateEntry(val, timer, true, valSet) == Entry(val, 0, false, false, valSet)
  {
  }

  /** A non-numeric input that is not a partial number becomes the default at once: '50' for a mask, '0' otherwise. */
  lemma GarbageReplaced(val: string, timer: int, mask: bool, valSet: bool)
    requires !RepresentsFloat(val) && !StillTyping(val, mask)
    ensures UpdateEntry(val, timer, mask, valSet) == Entry(if mask then "50" else "0", 0, true, true, true)
  {
  }

  /** A partial number waits one more tick; at the cutoff it is replaced by the default unless a value was already substituted. */
  lemma TypingTimesOut(val: string, timer: int, mask: bool, valSet: bool)
    requires !RepresentsFloat(val) && StillTyping(val, mask)
    ensures timer + 1 != TimerCutoff ==> UpdateEntry(val, timer, mask, valSet) == Entry(val, timer + 1, false, true, valSet)
    ensures timer + 1 == TimerCutoff ==>
              (UpdateEntry(val, timer, mask, valSet)
               == Entry(if valSet then val else if mask then "50" else "0", 0, true, true, valSet))
  {
  }

  /** A timer below the cutoff stays below it. */
  lemma EntryTimerInRange(val: string, timer: int, mask: bool, valSet: bool)
    requires 0 <= timer < TimerCutoff
    ensures 0 <= UpdateEntry(val, timer, mask, valSet).timer < TimerCutoff
  {
  }

  /**
   * The body of the loop of `retrieve_transform` for one input: replace
   * a value that cannot stand, advance or clear the timer, and apply the
   * cutoff.
   */
  method UpdateInput(val: string, timer: int, mask: bool, valSet: bool)
    returns (val': string, timer': int, timerTriggered: bool, valTriggered: bool, valSet': bool)
    ensures Entry(val', timer', timerTriggered, valTriggered, valSet') == UpdateEntry(val, timer, mask, valSet)
  {
    val', timer', valSet' := val, timer, valSet;
    timerTriggered, valTriggered := false, false;
    if !RepresentsFloat(val') && !mask {
      valTriggered := true;
      timer' := timer' + 1;
      if !StillTyping(val', mask) {
        val' := "0";
        valSet' := true;
        timer' := TimerCutoff;
      }
    } else if !RepresentsFloat(val') && mask {
      valTriggered := true;
      timer' := timer' + 1;
      if !StillTyping(val', mask) {
        val' := "50";
        valSet' := true;
        timer' := TimerCutoff;
      }
    } else {
      if ParseFloat(val').value > 100.0 && mask {
        val' := "100";
        valSet' := true;
        timer' := TimerCutoff;
      } else if ParseFloat(val').value < 1.0 && mask {
        val' := "1";
        valSet' := true;
        timer' := TimerCutoff;
      } else {
        timer' := 0;
      }
    }
    assert Entry(val', timer', false, valTriggered, valSet') == Substitute(val, timer, mask, valSet);
    if timer' == TimerCutoff {
      timerTriggered := true;
      timer' := 0;
      if !valSet' && !mask {
        val' := "0";
      } else if !valSet' && mask {
        val' := "50";
      }
    }
  }

  /** The timers, the new transform and the two trigger flags after the loop. */
  datatype Retrieved = Retrieved(timers: seq<int>, values: seq<string>, timerTriggered: bool, valTriggered: bool)

  /** The loop of `retrieve_transform` over the inputs still to process, from the given state. */
  function RetrieveLoop(entries: seq<(string, int, int)>, mask: bool, state: Retrieved, valSet: bool): (r: Result<Retrieved>)
    ensures r.Ok? ==> |r.value.timers| == |state.timers| && |r.value.values| == |state.values|
    ensures r.Err? ==> r.error == IndexError
    decreases |entries|
  {
    if entries == [] then Ok(state)
    else
      var (val, timer, i) := entries[0];
      var e := UpdateEntry(val, timer, mask, valSet);
      match PySeq.Store(state.timers, i, e.timer)
      case Err(err) => Err(err)
      case Ok(timers) =>
        match PySeq.Store(state.values, i, e.val)
        case Err(err) => Err(err)
        case Ok(values) =>
          RetrieveLoop(entries[1..], mask,
                       Retrieved(timers, values, state.timerTriggered || e.timerTriggered,
                                 state.valTriggered || e.valTriggered), e.valSet)
  }

  predicate TimersInRange(timers: seq<int>) {
    forall k :: 0 <= k < |timers| ==> 0 <= timers[k] < TimerCutoff
  }

  predicate EntryTimersInRange(entries: seq<(string, int, int)>) {
    forall k :: 0 <= k < |entries| ==> 0 <= entries[k].1 < TimerCutoff
  }

  /** When every incoming timer is below the cutoff, so is every timer written back. */
  lemma {:induction false} RetrieveLoopTimersInRange(entries: seq<(string, int, int)>, mask: bool, state: Retrieved, valSet: bool)
    requires EntryTimersInRange(entries) && TimersInRange(state.timers)
    ensures RetrieveLoop(entries, mask, state, valSet).Ok? ==> TimersInRange(RetrieveLoop(entries, mask, state, valSet).value.timers)
    decreases |entries|
  {
    if entries != [] {
      var (val, timer, i) := entries[0];
      var e := UpdateEntry(val, timer, mask, valSet);
      EntryTimerInRange(val, timer, mask, valSet);
      var t := PySeq.Store(state.timers, i, e.timer);
      var v := PySeq.Store(state.values, i, e.val);
      if t.Ok? && v.Ok? {
        StoreInRange(state.timers, i, e.timer);
        EntryTimersInRangeTail(entries);
        var next := Retrieved(t.value, v.value, state.timerTriggered || e.timerTriggered,
                              state.valTriggered || e.valTriggered);
        assert RetrieveLoop(entries, mask, state, valSet) == RetrieveLoop(entries[1..], mask, next, e.valSet);
        RetrieveLoopTimersInRange(entries[1..], mask, next, e.valSet);
      }
    }
  }

  lemma StoreInRange(timers: seq<int>, i: int, timer: int)
    requires TimersInRange(timers) && 0 <= timer < TimerCutoff
    ensures PySeq.Store(timers, i, timer).Ok? ==> TimersInRange(PySeq.Store(timers, i, timer).value)
  {
  }

  lemma EntryTimersInRangeTail(entries: seq<(string, int, int)>)
    requires entries != [] && EntryTimersInRange(entries)
    ensures EntryTimersInRange(entries[1..])
  {
    forall k | 0 <= k < |entries[1..]| ensures 0 <= entries[1..][k].1 < TimerCutoff {
      assert entries[1..][k] == entries[k + 1];
    }
  }

  /** The loop from its start: one zero timer for a mask, three otherwise, and nothing triggered yet. */
  function Retrieve(entries: seq<(string, int, int)>, newTransform: seq<string>, mask: bool): Result<Retrieved> {
    RetrieveLoop(entries, mask, Retrieved(if mask then [0] else [0, 0, 0], newTransform, false, false), false)
  }

  /** Every timer `retrieve_transform` writes back is below the cutoff when every incoming one is. */
  lemma RetrieveTimersInRange(entries: seq<(string, int, int)>, newTransform: seq<string>, mask: bool)
    requires EntryTimersInRange(entries)
    ensures Retrieve(entries, newTransform, mask).Ok? ==> TimersInRange(Retrieve(entries, newTransform, mask).value.timers)
  {
    var start := Retrieved(if mask then [0] else [0, 0, 0], newTransform, false, false);
    assert TimersInRange(start.timers);
    RetrieveLoopTimersInRange(entries, mask, start, false);
  }

  /** The timers `retrieve_transform` keeps between calls, one tuple per tab. */
  class TransformTimers {
    var lsRotxyTimers: seq<int>
    var bujRotxyTimers: seq<int>
    var recRotxyTimers: seq<int>
    var recMaskTimer: seq<int>

    constructor ()
      ensures lsRotxyTimers == bujRotxyTimers == recRotxyTimers == [0, 0, 0] && recMaskTimer == [0]
    {
      lsRotxyTimers, bujRotxyTimers, recRotxyTimers := [0, 0, 0], [0, 0, 0], [0, 0, 0];
      recMaskTimer := [0];
    }

    /** Every stored timer is below the cutoff. */
    predicate Valid()
      reads this
    {
      TimersInRange(lsRotxyTimers) && TimersInRange(bujRotxyTimers)
      && TimersInRange(recRotxyTimers) && TimersInRange(recMaskTimer)
    }

    /**
     * `retrieve_transform(...)`: the new transform, and whether it is
     * applied (a timer ran out or every input was a number). The timers
     * are stored for the current tab only, or as the mask timer.
     */
    method RetrieveTransform(currentTab: string, entries: seq<(string, int, int)>,
                             newTransform: seq<string>, mask: bool)
      returns (r: Result<(seq<string>, bool)>)
      modifies this
      ensures Retrieve(entries, newTransform, mask).Err? ==> r.Err? && r.error == IndexError && unchanged(this)
      ensures Retrieve(entries, newTransform, mask).Ok? ==>
                r.Ok? && r.value.0 == Retrieve(entries, newTransform, mask).value.values
                && r.value.1 == (Retrieve(entries, newTransform, mask).value.timerTriggered
                                 || !Retrieve(entries, newTransform, mask).value.valTriggered)
      ensures Retrieve(entries, newTransform, mask).Ok? ==>
                recMaskTimer == (if mask then Retrieve(entries, newTransform, mask).value.timers else old(recMaskTimer))
      ensures Retrieve(entries, newTransform, mask).Ok? ==>
                lsRotxyTimers == (if !mask && currentTab == "ls_tab"
                                  then Retrieve(entries, newTransform, mask).value.timers else old(lsRotxyTimers))
      ensures Retrieve(entries, newTransform, mask).Ok? ==>
                bujRotxyTimers == (if !mask && currentTab == "bunwarpj_tab"
                                   then Retrieve(entries, newTransform, mask).value.timers else old(bujRotxyTimers))
      ensures Retrieve(entries, newTransform, mask).Ok? ==>
                recRotxyTimers == (if !mask && currentTab == "reconstruct_tab"
                                   then Retrieve(entries, newTransform, mask).value.timers else old(recRotxyTimers))
      ensures old(Valid()) && EntryTimersInRange(entries) ==> Valid()
    {
      var run := RunEntries(entries, newTransform, mask);
      if run.Err? {
        return Err(IndexError);
      }
      var timers := run.value.timers;
      if EntryTimersInRange(entries) {
        RetrieveTimersInRange(entries, newTransform, mask);
      }
      if !mask {
        if currentTab == "ls_tab" {
          lsRotxyTimers := timers;
        } else if currentTab == "bunwarpj_tab" {
          bujRotxyTimers := timers;
        } else if currentTab == "reconstruct_tab" {
          recRotxyTimers := timers;
        }
      } else {
        recMaskTimer := timers;
      }
      r := Ok((run.value.values, run.value.timerTriggered || !run.value.valTriggered));
    }
  }

  /** The loop of `retrieve_transform` over its inputs, writing each result at the input's index. */
  method RunEntries(entries: seq<(string, int, int)>, newTransform: seq<string>, mask: bool)
    returns (r: Result<Retrieved>)
    ensures r.Ok? <==> Retrieve(entries, newTransform, mask).Ok?
    ensures r.Ok? ==> r.value == Retrieve(entries, newTransform, mask).value
  {
    var timerTriggered, valTriggered := false, false;
    var timers: seq<int> := if mask then [0] else [0, 0, 0];
    var values := newTransform;
    var valSet := false;
    for n := 0 to |entries|
      invariant Retrieve(entries, newTransform, mask)
                == RetrieveLoop(entries[n..], mask, Retrieved(timers, values, timerTriggered, valTriggered), valSet)
    {
      assert entries[n..][1..] == entries[n + 1..];
      var (val, timer, i) := entries[n];
      var trig, valTrig;
      val, timer, trig, valTrig, valSet := UpdateInput(val, timer, mask, valSet);
      timerTriggered, valTriggered := timerTriggered || trig, valTriggered || valTrig;
      var t := PySeq.Store(timers, i, timer);
      if t.Err? {
        return Err(IndexError);
      }
      var v := PySeq.Store(values, i, val);
      if v.Err? {
        return Err(IndexError);
      }
      timers, values := t.value, v.value;
    }
    r := Ok(Retrieved(timers, values, timerTriggered, valTriggered));
  }

  // ---------------------------------------------------------------
  // rec_get_listbox_ind_from_key
  // ---------------------------------------------------------------

  /** The listbox position of a reconstruction result key, for the nine keys the listbox knows. */
  function KeyIndex(key: string): (r: Option<int>)
    ensures r.Some? ==> 1 <= r.value <= 9
  {
    if key == "color_b" then Some(1)
    else if key == "bxt" then Some(2)
    else if key == "byt" then Some(3)
    else if key == "bbt" then Some(4)
    else if key == "phase_e" then Some(5)
    else if key == "phase_m" then Some(6)
    else if key == "dIdZ_e" then Some(7)
    else if key == "dIdZ_m" then Some(8)
    else if key == "inf_im" then Some(9)
    else None
  }

  /**
   * `rec_get_listbox_ind_from_key(key_list)`: positions 0 and 10, then
   * one position per key; an unknown key repeats the position before it,
   * and an unknown first key finds `ind` unbound.
   */
  method RecGetListboxIndFromKey(keys: seq<string>) returns (r: Result<seq<int>>)
    ensures r.Err? <==> keys != [] && KeyIndex(keys[0]).None?
    ensures r.Err? ==> r.error == UnboundLocalError
    ensures r.Ok? ==> |r.value| == 2 + |keys| && r.value[..2] == [0, 10]
    ensures r.Ok? ==> forall k :: 0 <= k < |keys| && KeyIndex(keys[k]).Some? ==> r.value[k + 2] == KeyIndex(keys[k]).value
    ensures r.Ok? ==> forall k :: 0 <= k < |keys| && KeyIndex(keys[k]).None? ==> r.value[k + 2] == r.value[k + 1]
  {
    var indices := [0, 10];
    var ind: Option<int> := None;
    for n := 0 to |keys|
      invariant |indices| == 2 + n && indices[..2] == [0, 10]
      invariant ind.None? <==> n == 0
      invariant n > 0 ==> KeyIndex(keys[0]).Some?
      invariant n > 0 ==> ind == Some(indices[n + 1])
      invariant forall k :: 0 <= k < n && KeyIndex(keys[k]).Some? ==> indices[k + 2] == KeyIndex(keys[k]).value
      invariant forall k :: 0 <= k < n && KeyIndex(keys[k]).None? ==> indices[k + 2] == indices[k + 1]
    {
      var key := keys[n];
      ghost var prev := ind;
      if key == "color_b" {
        ind := Some(1);
      } else if key == "bxt" {
        ind := Some(2);
      } else if key == "byt" {
        ind := Some(3);
      } else if key == "bbt" {
        ind := Some(4);
      } else if key == "phase_e" {
        ind := Some(5);
      } else if key == "phase_m" {
        ind := Some(6);
      } else if key == "dIdZ_e" {
        ind := Some(7);
      } else if key == "dIdZ_m" {
        ind := Some(8);
      } else if key == "inf_im" {
        ind := Some(9);
      }
      assert ind == (if KeyIndex(key).Some? then KeyIndex(key) else prev);
      if ind.None? {
        return Err(UnboundLocalError);
      }
      indices := indices + [ind.value];
    }
    r := Ok(indices);
  }

  // ---------------------------------------------------------------
  // set_crop_data: the bounding box of the mask
  // ---------------------------------------------------------------

  /**
   * The bounding box of the mask corners in `set_crop_data`, with y
   * measured from the bottom of the graph; the whole graph when there
   * are no corners.
   */
  method CropBox(coords: seq<(int, int)>, graphX: int, graphY: int)
    returns (bottom: int, top: int, left: int, right: int)
    ensures coords == [] ==> (bottom, top, left, right) == (graphY, 0, 0, graphX)
    ensures forall k :: 0 <= k < |coords| ==>
              left <= coords[k].0 <= right && top <= graphY - coords[k].1 <= bottom
    ensures coords != [] ==>
              (exists k :: 0 <= k < |coords| && coords[k].0 == left)
              && (exists k :: 0 <= k < |coords| && coords[k].0 == right)
              && (exists k :: 0 <= k < |coords| && graphY - coords[k].1 == top)
              && (exists k :: 0 <= k < |coords| && graphY - coords[k].1 == bottom)
  {
    var b, t, l, rt: Option<int> := None, None, None, None;
    for i := 0 to |coords|
      invariant i == 0 <==> b.None?
      invariant i == 0 <==> t.None?
      invariant i == 0 <==> l.None?
      invariant i == 0 <==> rt.None?
      invariant i > 0 ==> forall k :: 0 <= k < i ==>
                  l.value <= coords[k].0 <= rt.value && t.value <= graphY - coords[k].1 <= b.value
      invariant i > 0 ==>
                  (exists k :: 0 <= k < i && coords[k].0 == l.value)
                  && (exists k :: 0 <= k < i && coords[k].0 == rt.value)
                  && (exists k :: 0 <= k < i && graphY - coords[k].1 == t.value)
                  && (exists k :: 0 <= k < i && graphY - coords[k].1 == b.value)
    {
      var (x, y) := coords[i];
      if rt.None? || x > rt.value {
        rt := Some(x);
      }
      if l.None? || x < l.value {
        l := Some(x);
      }
      if b.None? || graphY - y > b.value {
        b := Some(graphY - y);
      }
      if t.None? || graphY - y < t.value {
        t := Some(graphY - y);
      }
    }
    if (b, t, l, rt) == (None, None, None, None) {
      bottom, top, left, right := graphY, 0, 0, graphX;
    } else {
      bottom, top, left, right := b.value, t.value, l.value, rt.value;
    }
  }
}
