# PyLorentz image preparation, modelled in Dafny

This project models the core of PyLorentz, which prepares through-focal
series of Lorentz electron-microscope images for phase reconstruction.

The main model is `DefocusedDataset`, the staged preparation pipeline. It
owns these parts:

- a raw image stack that never changes once taken;
- one defocus value per image;
- three derived caches: preprocessed, cropped and filtered;
- the current view `images`;
- three stage flags.

`preprocess` rebuilds the preprocessed cache from the raw stack and then
re-runs the transform stage. `apply_transforms` rotates and crops the
preprocessed cache, or the raw stack when there is none. When filtering has
already run, it also filters every cropped image again with the recorded
parameters. `filter` reads from the cropped cache, or else the preprocessed
cache, or else the raw stack. It writes only the selected indices of the
filtered cache and of `images`. The setters keep the numbers of images and
of defocus values equal.

The supporting models cover smaller parts of the same program:

- the reconstruction-parameter holder (`TIE_params`): constructor checks,
  defaults, `reset_crop` and the mask;
- `symmetrize`, the crop dimensions and the saved-file names of the
  reconstruction;
- the FIJI alignment macro builders of the GUI: `.fls` parsing, window
  bookkeeping and macro text;
- the GUI's pure helpers: list ordering, path strings, integer parsing and
  the square mask geometry;
- the GUI's parameter validators, the input timer and clamp logic, the
  listbox index table and the crop bounding box.

Files:

- `results.dfy`: the Python exceptions as a `Result` type.
- `py_seq.dfy`: Python indexing and slicing.
- `py_text.dfy`: the Python string operations the code relies on.
- `stacks.dfy`: images, stacks and the pure stage functions of the pipeline, with their lemmas.
- `defocused_dataset.dfy`: the `DefocusedDataset` class, proved against `stacks.dfy`.
- `tie_params.dfy`: the `TieParams` class.
- `tie_reconstruct.dfy`: the reconstruction arithmetic.
- `align.dfy`: the FIJI macro builders.
- `gui_util.dfy`: the helpers of `GUI/util.py`.
- `gui_main.dfy`: the widget-free helpers of `GUI/PyLorentz_GUI.py`.

An image is a `seq<seq<real>>`. Four numerical operators are carried as
uninterpreted function values: rotation without reshaping, hot-pixel
removal, the median filter in the image plane and the bandpass filter.
The predicate `ShapePreserving` assumes only that each keeps the shape of
its image. The raw stack and the operators are `const` fields, so no
method can change them. A Python exception becomes an `Err` or `Fail`
value carrying the exception class.

Behaviour of the code worth noting:

- `__init__` stores `beam_energy` directly. Only the `energy` property
  setter validates a value, so construction does not check the energy.
- `filter` builds a missing filtered cache with `np.zeros_like` of the
  cropped cache. Before any transform stage that cache is `None`, so
  `filter` fails with IndexError. It has already set the filtered flag and
  recorded the parameters by then.
- `reset_transforms` re-runs the whole transform stage. If filtering has
  run, the current view is the filtered base, not the base itself.
- After a partial `filter(idx=...)`, `apply_transforms` filters every
  image again, not only the subset.

## Model

| member | source | states |
|---|---|---|
| Stacks.RegularIffCommonShape | PyLorentz/dataset/defocused_dataset.py:42 | a stack converts to a 3-D array exactly when all its images share one shape |
| Stacks.NormalizeIndices | PyLorentz/dataset/defocused_dataset.py:378-387 | `idx` None gives all indices and an int gives that one index, resolved like a list; any other non-list, and nothing else, raises TypeError; accepted indices are in range |
| Stacks.ResolveIndices | PyLorentz/dataset/defocused_dataset.py:389-394 | integer-array indexing accepts exactly the indices in -n..n-1, maps negative ones to i+n, and raises IndexError otherwise |
| Stacks.ScatterSelected | PyLorentz/dataset/defocused_dataset.py:433-436 | after filtering a selection, each selected index holds the filtered source image and every other index keeps its old value |
| Stacks.FilterAllIsFiltered | PyLorentz/dataset/defocused_dataset.py:254-263 | the replay in apply_transforms equals filter(idx=None) with the recorded parameters, whatever the filtered stack held before |
| Stacks.FullFrameCropIsIdentity | PyLorentz/dataset/defocused_dataset.py:246-250 | cropping with [0:H, 0:W] leaves every image unchanged |
| Stacks.PreprocessedShape | PyLorentz/dataset/defocused_dataset.py:284-294 | preprocessing keeps the shape of every image |
| Stacks.PreprocessedPerImage | PyLorentz/dataset/defocused_dataset.py:291-294 | the median filter of size (1, m, m) never mixes images: image i depends on raw image i alone |
| Stacks.ResetTransformsKeepsPreprocessed | PyLorentz/dataset/defocused_dataset.py:305-310 | with the transform record reset, the transform stage returns the preprocessed stack unchanged |
| Stacks.TransformedShape | PyLorentz/dataset/defocused_dataset.py:243-250 | the transform stage keeps the stack count, and an in-frame crop gives every image the shape (bottom-top, right-left) |
| DefocusedDatasets.AssignImages | PyLorentz/dataset/defocused_dataset.py:152-162 | the images setter accepts exactly a stack whose images share one shape (`np.array`) and whose count equals the number of defocus values, and otherwise raises ValueError |
| DefocusedDatasets.AssignDefvals | PyLorentz/dataset/defocused_dataset.py:172-181 | a number is wrapped into one value, None raises TypeError, and a count different from the image count raises ValueError |
| DefocusedDatasets.AssignEnergy | PyLorentz/dataset/defocused_dataset.py:194-200 | non-numeric energy raises TypeError, energy <= 0 raises ValueError, and otherwise the value is stored |
| DefocusedDatasets.InitCheck | PyLorentz/dataset/defocused_dataset.py:42-70 | construction succeeds exactly when the stack is regular and the defocus values match its count; a mismatch fails on the defvals assignment |
| DefocusedDatasets.FilterImages | PyLorentz/dataset/defocused_dataset.py:396-400 | the filter loop gives the bandpass of each selected source image, in selection order |
| DefocusedDatasets.DefocusedDataset.constructor | PyLorentz/dataset/defocused_dataset.py:32-78 | the raw stack and images are the argument stack, the caches are absent, the flags are false and the transform record is at its defaults |
| DefocusedDatasets.DefocusedDataset.Copy | PyLorentz/dataset/defocused_dataset.py:438-445 | the copy is a fresh object holding the same state |
| DefocusedDatasets.DefocusedDataset.SetImages | PyLorentz/dataset/defocused_dataset.py:152-162 | a ragged stack or a count mismatch raises ValueError and leaves images unchanged; otherwise images is replaced and the invariant holds |
| DefocusedDatasets.DefocusedDataset.SetDefvals | PyLorentz/dataset/defocused_dataset.py:172-181 | a count mismatch leaves defvals unchanged; otherwise defvals is replaced and the invariant holds |
| DefocusedDatasets.DefocusedDataset.SetEnergy | PyLorentz/dataset/defocused_dataset.py:194-200 | energy changes only when the argument is numeric and positive |
| DefocusedDatasets.DefocusedDataset.ApplyTransforms | PyLorentz/dataset/defocused_dataset.py:234-267 | the cropped cache is the rotated-then-cropped base; if filtering ran, every cropped image is filtered again into the filtered cache and images; the cropped flag is set and the modified flag cleared |
| DefocusedDatasets.DefocusedDataset.TransformStage | PyLorentz/dataset/defocused_dataset.py:238-263 | the computation of apply_transforms equals the Transformed stage function, then Filtered when parameters are given |
| DefocusedDatasets.DefocusedDataset.RotateEach | PyLorentz/dataset/defocused_dataset.py:243-245 | the rotation loop rotates every image by the angle |
| DefocusedDatasets.DefocusedDataset.BandpassEach | PyLorentz/dataset/defocused_dataset.py:254-262 | the re-filtering loop filters every image with the recorded parameters |
| DefocusedDatasets.DefocusedDataset.Preprocess | PyLorentz/dataset/defocused_dataset.py:269-300 | the preprocessed cache is preprocessing of the raw stack, so calls do not compound; options are recorded and the transform stage re-runs on the new base |
| DefocusedDatasets.DefocusedDataset.PreprocessStage | PyLorentz/dataset/defocused_dataset.py:284-294 | hot pixels are removed when asked, then the median filter is applied, from the raw stack |
| DefocusedDatasets.DefocusedDataset.HotpixEach | PyLorentz/dataset/defocused_dataset.py:286-289 | the hot-pixel loop filters every image on its own |
| DefocusedDatasets.DefocusedDataset.ResetTransforms | PyLorentz/dataset/defocused_dataset.py:305-310 | rotation 0 and the full-frame crop; the cropped cache then equals the base, and images is the base or its re-filtered version |
| DefocusedDatasets.DefocusedDataset.Filter | PyLorentz/dataset/defocused_dataset.py:355-436 | a bad idx raises TypeError or IndexError with nothing changed; otherwise parameters are recorded, and only the selected indices of images and the filtered cache change (IndexError before any transform stage) |
| DefocusedDatasets.DefocusedDataset.FilterAt | PyLorentz/dataset/defocused_dataset.py:389-436 | with normalised indices, the source is the cropped cache when cropped, and the filtered images are scattered into the selected indices |
| DefocusedDatasets.DefocusedDataset.ROIPreview | PyLorentz/dataset/defocused_dataset.py:210-230 | an explicit image must have the original shape; otherwise image idx of the preprocessed or raw stack, bandpass filtered if filtering ran |
| DefocusedDatasets.DefocusedDataset.SelectROI | PyLorentz/dataset/defocused_dataset.py:202-232 | the chosen rectangle is written into the crop record only when the preview succeeds; the transform stage does not re-run |
| DefocusedDatasets.ResolveLoad | PyLorentz/dataset/defocused_dataset.py:104-144 | explicit keywords win over metadata entries; an empty input raises IndexError, a list of paths NotImplementedError, and missing defocus values ValueError |
| DefocusedDatasets.Load | PyLorentz/dataset/defocused_dataset.py:87-146 | load builds a dataset from the resolved arguments exactly when they pass the constructor's checks |
| TieParameters.InitialCrop | PyTIE/TIE_params.py:142-147 | the crop box starts at (0, 0) and ends at the last row and column |
| TieParameters.WrapDefvals | PyTIE/TIE_params.py:101-104 | a defocus argument that is not a list or array becomes a one-element list |
| TieParameters.DefocusCountShape | PyTIE/TIE_params.py:106-110 | a series that passes the count assertion has an odd number of images, and with more than one image it has num_files // 2 defocus values |
| TieParameters.FlipSetting | PyTIE/TIE_params.py:117-122 | flip is the explicit argument when given, else whether the flip stack is non-empty |
| TieParameters.DataLocation | PyTIE/TIE_params.py:124-129 | data_loc defaults to './', always ends with '/', and keeps a given path as its prefix |
| TieParameters.InitCheck | PyTIE/TIE_params.py:90-151 | the constructor's failures in order: ragged stack, count assertion, missing scale, then, gated on the flip argument, the length check and the averaging of the two in-focus images (line 135), refused whenever their shapes differ; then the mask's concatenation (line 151), which fails for a multi-image series without a flip stack |
| TieParameters.MaskStackAsWritten | PyTIE/TIE_params.py:191-192 | concatenating the image stack with an empty flip stack fails |
| TieParameters.MaskStack | PyTIE/TIE_params.py:191-192 | the corrected concatenation: the unflip stack then the flip stack, failing only when shapes differ |
| TieParameters.UnflipOnlyMaskFails | PyTIE/TIE_params.py:192 | a regular three-image unflip-only series fails as written and succeeds when corrected |
| TieParameters.UnflipOnlyConstructionFails | PyTIE/TIE_params.py:148-151 | the constructor refuses a regular three-image unflip-only series with a mask, which the corrected concatenation accepts |
| TieParameters.MaskStackAgrees | PyTIE/TIE_params.py:191-192 | with a flip stack the written and corrected concatenations agree |
| TieParameters.TieParams.constructor | PyTIE/TIE_params.py:70-151 | fields take the wrapped defvals, file count, flip setting, data location, zero rotation and translations, and initial crop; the in-focus image is averaged only when the flip argument is True; the mask is built as written |
| TieParameters.TieParams.ResetCrop | PyTIE/TIE_params.py:443-448 | reset_crop restores exactly the constructor's crop box |
| TieParameters.TieParams.MakeMask | PyTIE/TIE_params.py:168-209 | a single image gets an all-ones mask of the image shape; otherwise the concatenation as written fails with ValueError (always without a flip stack) and leaves the state unchanged, or its mask also multiplies the in-focus image |
| TieReconstruct.Symmetrize | PyTIE/TIE_reconstruct.py:572-589 | an MxN image gives a 2Mx2N array: the top-left block is the image, row M+i of the bottom-left block is row M-1-i, and each right half mirrors its left half |
| TieReconstruct.SymmetrizeRowMirror | PyTIE/TIE_reconstruct.py:587-588 | row M+k of the extension equals row M-1-k |
| TieReconstruct.SymmetrizeVerticalMirror | PyTIE/TIE_reconstruct.py:586-589 | the lower half of the extension is its upper half reversed |
| TieReconstruct.CropOfSymmetrize | PyTIE/TIE_reconstruct.py:586 | cropping the top-left MxN block of the extension gives the image back |
| TieReconstruct.ReconDims | PyTIE/TIE_reconstruct.py:169-179 | the dimensions are bottom-top by right-left, both doubled when sym is set |
| TieReconstruct.ReconDimsMatchImage | PyTIE/TIE_reconstruct.py:169-179 | for an in-frame crop, the dimensions are the shape of the cropped image or of its symmetric extension |
| TieReconstruct.NormalizeDataname | PyTIE/TIE_reconstruct.py:657-658 | dataname ends with '_' afterwards, and a trailing '_' is appended only when missing |
| TieReconstruct.NormalizeDatanameIdempotent | PyTIE/TIE_reconstruct.py:657-658 | normalising twice is normalising once |
| TieReconstruct.DatanameRoundTrip | PyTIE/TIE_reconstruct.py:695 | dataname[:-1] recovers a name that had no trailing '_' |
| TieReconstruct.SaveNameAsWritten | PyTIE/TIE_reconstruct.py:640-679 | the save name fails exactly when long_deriv is set, and is otherwise dataname, defval and key |
| TieReconstruct.SaveNameAgrees | PyTIE/TIE_reconstruct.py:640-679 | the written and intended save names agree except for a longitudinal derivative |
| TieReconstruct.SaveNamesDistinct | PyTIE/TIE_reconstruct.py:679 | distinct result keys give distinct file names |
| Align.UnflipMentionsFlip | GUI/align.py:518-527 | a reference containing 'unflip' also contains 'flip' |
| Align.FijiTextAppend | GUI/align.py:41-50 | the macro text of consecutive line blocks is the concatenation of their texts |
| Align.FijiBlankLine | GUI/align.py:44-50 | a blank line contributes nothing |
| Align.FijiLineEnding | GUI/align.py:44-49 | a stripped line containing ';' is followed by a newline, and any other non-blank line by one space |
| Align.FijifyMacro | GUI/align.py:26-51 | the result is the stripped lines, each with its ending, with every backslash replaced; it holds no backslash |
| Align.FormatMacro | GUI/align.py:54-65 | the macros are joined by newlines, then made FIJI-ready |
| Align.PullImageFiles | GUI/align.py:71-123 | an empty file raises IndexError and a non-integer count raises ValueError; on success there are three groups, the focus group has one line, and with check_align every group has one |
| Align.PullGroups | GUI/align.py:104-123 | the groups from the line list once the count is read: three groups, one focus line |
| Align.PullImageFilesGroups | GUI/align.py:104-122 | under is lines 1..n//2 reversed, focus is line n//2+1, and over is lines n//2+2..2(n//2)+1 |
| Align.PullImageFilesCheckAlign | GUI/align.py:113-116 | with check_align only the focus line and its two neighbours are kept |
| Align.PullThenFlatten | GUI/align.py:104-122 | flattening the pulled groups gives the image lines in file order |
| Align.GrabFlsData | GUI/align.py:126-165 | with one .fls file the second list repeats the first for an Unflip/Flip series and is empty otherwise; two files give one list each; any other fls_value leaves files1 unbound |
| Align.DetermineWindowFocus | GUI/align.py:531-553 | place is ((w-1)//3, (w-1)%3), and pos is False exactly when (w-1)%3 == 0 |
| Align.CheckImageFlip | GUI/align.py:495-528 | windows <= 3 use path1 and the others path2; a reference naming 'flip' or 'unflip' flips exactly the windows whose orientation differs from it, and any other reference leaves `flip` unset |
| Align.SetShortnames | GUI/align.py:393-424 | the group at place and the title 'u'/'f', '_', '-'/'0'/'+'; a place outside the six leaves both unbound |
| Align.WindowNamingAgrees | GUI/align.py:412-553 | the title starts with 'u' exactly for path1 windows, and ends with '-' exactly when pos is False |
| Align.FlipCommand | GUI/align.py:341-345 | the flip command is present exactly when horizontal is set |
| Align.RotationCommand | GUI/align.py:346-349 | the rotation command is present exactly when rot != 0, with angle -rot |
| Align.TranslationCommand | GUI/align.py:350-354 | the translation command is present exactly when a shift is non-zero, with y negated |
| Align.GetShiftRotMacro | GUI/align.py:325-358 | the flip, the rotation by -rot and the translation by (x, -y) each appear in the macro when their condition holds; with no transformation only the template line breaks remain |
| Align.TrimAndReverseStacks | GUI/align.py:949-983 | delete exactly for more than one file, a reference naming 'flip', and a stack that is not the reference overfocus stack; reverse exactly when deleting and pos is false |
| Align.TrimAndReverseSingleStack | GUI/align.py:986-1010 | delete and reverse exactly for '-under-' with more than one file |
| Align.DeleteExactlyOnce | GUI/align.py:977-983 | with a reference naming 'flip', every non-empty stack but the reference overfocus one loses its extra slice exactly once, after alignment or in the excess-image macro; never twice |
| Align.DeleteFor | GUI/align.py:1047-1059 | a single-file group needs its short name (IndexError otherwise) and gets the delete command its orientation calls for |
| Align.DeleteExcessImagesMacro | GUI/align.py:1028-1062 | one line per group with the delete command where needed; IndexError exactly when a single-file group has no short name |
| Align.UnflipReferenceSelection | GUI/align.py:1083-1094 | with an 'unflip' reference, every shortname except 'u_0' is selected |
| Align.OrderWindowsForSelectionMacro | GUI/align.py:1065-1094 | the selected windows are numbered image1, image2, ... consecutively in input order, with one selectWindow each |
| GuiUtil.FlattenOrderList | GUI/util.py:177-198 | the first list reversed, then the second and third; the length is the sum of the three; fewer than three lists raise IndexError |
| GuiUtil.FlattenUndoesReversal | GUI/util.py:195-198 | flattening undoes a reversal of the first list |
| GuiUtil.Slashed | GUI/util.py:216 | every backslash becomes '/', other characters are kept, and no backslash remains |
| GuiUtil.Join | GUI/util.py:201-217 | the sep-joined string with every backslash replaced by '/'; the result holds no backslash |
| GuiUtil.JoinWithoutBackslash | GUI/util.py:215-216 | pieces without backslashes are joined unchanged |
| GuiUtil.RepresentsIntAboveZero | GUI/util.py:237-254 | an accepted string holds a digit and does not start with a minus sign |
| GuiUtil.RepresentsNatString | GUI/util.py:237-254 | the decimal form of n is accepted exactly when n > 0 |
| GuiUtil.ShortName | GUI/util.py:85-86 | the suffix after the last '/' (or the whole path); it holds no '/' and the path ends with it |
| GuiUtil.FileObject.constructor | GUI/util.py:71-79 | the short name is set from the path at construction |
| GuiUtil.FileObject.ShortenName | GUI/util.py:81-86 | shortname becomes the suffix of path after its last '/' |
| GuiUtil.RoundHalfEven | GUI/util.py:811 | round() lies within 1/2 of its argument, and ties go to the even integer |
| GuiUtil.EvenSide | GUI/util.py:812-815 | an odd side is decremented, so the side is even |
| GuiUtil.MaskSide | GUI/util.py:802-811 | the side is graph_x times the size percentage, rounded; width and height both come from graph_x |
| GuiUtil.SquareMaskBox | GUI/util.py:816-849 | away from both bounds the box spans width centred on the centre; at one bound it is clamped to that edge, and at both bounds it spans the graph |
| GuiUtil.FreeMaskIsSquare | GUI/util.py:811-840 | away from every bound the mask is a square of even side |
| GuiUtil.Corners | GUI/util.py:851 | four corners in the order (left,top), (left,bottom), (right,bottom), (right,top) |
| GuiUtil.MaskWindow.DrawSquareMask | GUI/util.py:790-851 | only rec_mask_coords changes, and it becomes the corners of the square mask box |
| GuiMain.LoadLsSiftParams | GUI/PyLorentz_GUI.py:396-440 | Some exactly when every field parses and igb > 0, spso >= 1, 0 < min_im < max_im <= image_size, fds >= 0, fdob > 0, 0 <= cncr <= 1, max_al_err > 0 and 0 <= inlier_rat <= 1; then the parsed values |
| GuiMain.NegativeSpsoRefused | GUI/PyLorentz_GUI.py:416 | `not (int(spso)) >= 1` reads as `not (int(spso) >= 1)`, so a negative spso such as '-1' is refused |
| GuiMain.DeformationRank | GUI/PyLorentz_GUI.py:565-567 | the four deformation names rank from Very Coarse to Very Fine |
| GuiMain.DeformationRejectedIffFiner | GUI/PyLorentz_GUI.py:565-568 | the three rejected cases are exactly the pairs whose initial deformation is strictly finer than the final one |
| GuiMain.LoadBujParams | GUI/PyLorentz_GUI.py:540-585 | None on a failed parse, a negative weight, stop_thresh <= 0 or a finer initial deformation; otherwise the parsed values |
| GuiMain.ShortenedName | GUI/PyLorentz_GUI.py:601-605 | the short name is a suffix of the path, either the whole path or one that follows a '/' |
| GuiMain.ShortenedNameOnce | GUI/PyLorentz_GUI.py:589-606 | with the default ind=1 the short name is the text after the last '/' |
| GuiMain.ShortenName | GUI/PyLorentz_GUI.py:589-606 | the loop gives ShortenedName for ind >= 1; for ind <= 0 `index` is unbound |
| GuiMain.SaveFolder | GUI/PyLorentz_GUI.py:680-689 | the folder is a prefix of the file name |
| GuiMain.SaveFolderIsDirectory | GUI/PyLorentz_GUI.py:680-689 | without 'buj_transforms/', folder + '/' + short name is the file name, or the folder is '' when there is no '/' |
| GuiMain.LastCut | GUI/PyLorentz_GUI.py:684-688 | the cutting loop ends at the last '/' of the text, or 0 when there is none |
| GuiMain.SkipSave | GUI/PyLorentz_GUI.py:677-693 | True exactly when some file name's folder differs from image_dir |
| GuiMain.UpdateEntry | GUI/PyLorentz_GUI.py:772-808 | no timer leaves the loop body at the cutoff |
| GuiMain.RepresentsFloat | GUI/util.py:220-234 | every string `int()` accepts is also accepted, with the same value |
| GuiMain.PartialInputsNotFloats | GUI/PyLorentz_GUI.py:774-787 | the partial inputs '', '-', '.' and '-.' that the loop lets wait are not numbers, so its waiting branch is reachable for each of them |
| GuiMain.MaskSizeClamped | GUI/PyLorentz_GUI.py:789-808 | mask sizes above 100 become '100' and below 1 become '1', with a trigger; sizes in range are kept and their timer cleared |
| GuiMain.GarbageReplaced | GUI/PyLorentz_GUI.py:774-808 | a non-numeric value that is not a partial number becomes '0' ('50' for a mask) at once and triggers |
| GuiMain.TypingTimesOut | GUI/PyLorentz_GUI.py:774-808 | a partial number waits a tick; at the cutoff 45 the timer resets and the default is substituted unless a value was already set |
| GuiMain.EntryTimerInRange | GUI/PyLorentz_GUI.py:772-808 | a timer below the cutoff stays below it |
| GuiMain.UpdateInput | GUI/PyLorentz_GUI.py:772-808 | the loop body computes UpdateEntry |
| GuiMain.RetrieveLoop | GUI/PyLorentz_GUI.py:772-810 | writing back keeps the lengths of the timers and the values; an out-of-range index raises IndexError |
| GuiMain.RetrieveLoopTimersInRange | GUI/PyLorentz_GUI.py:763-810 | timers written back stay below the cutoff when the incoming ones are |
| GuiMain.RetrieveTimersInRange | GUI/PyLorentz_GUI.py:763-810 | from the start state, every timer written back is below the cutoff when every incoming timer is |
| GuiMain.RunEntries | GUI/PyLorentz_GUI.py:763-810 | the loop computes the Retrieve function |
| GuiMain.TransformTimers.RetrieveTransform | GUI/PyLorentz_GUI.py:736-828 | timers are stored for the current tab only, or as the mask timer; the transform is applied when a timer fired or no value was invalid |
| GuiMain.KeyIndex | GUI/PyLorentz_GUI.py:1574-1592 | the nine keys map to positions 1..9 |
| GuiMain.RecGetListboxIndFromKey | GUI/PyLorentz_GUI.py:1563-1594 | [0, 10] then one position per key in key order (length 2 + len(keys)); an unknown key repeats the previous one, and an unknown first key leaves `ind` unbound |
| GuiMain.CropBox | GUI/PyLorentz_GUI.py:1478-1490 | the bounding box of the mask corners, with y measured as graph height minus y, is attained by some corner; with no corners it is the whole graph |

## Left out

- Reading and writing files is left out: `read_image`/`read_json` in `load`, the `.fls` read in `pull_image_files` (the model takes the file text), `read_fls`/`check_setup` path checks, and the tiff and text writing of `save_results`.
- Numerical image operators are uninterpreted, shape-preserving function values: `ndi.rotate`, `filter_hotpix`, `ndi.median_filter` and the bandpass filter. The threshold, erosion and smoothing in `make_mask` are one uninterpreted operator. The FFT reconstruction in `TIE`/`SITIE` is left out.
- Plotting is left out: `show_im`, `show_all`, `filter(show=True)` and the progress bars.
- `BaseDataset` is not part of this model. Its transform record is the `transforms` field. `_reset_transforms` is taken to set rotation 0 and the crop [0:H, 0:W] of the original shape. `_select_ROI` is the `chosen` rectangle argument of `SelectROI`. `_bandpass_filter` is the `bandpass` operator. Scale and verbosity bookkeeping are not modelled. The `energy` property reads `_beam_energy`, which `__init__` never sets; the model takes `BaseDataset` to leave it None, so `energy` is None until the setter runs.
- DefocusedDatasets.DefocusedDataset.constructor: `data_files`/`data_dirs`, `verbose`, `mask = None` and the float64 conversion are not modelled.
- DefocusedDatasets.Load: metadata parsing (`_parse_mdata`), `data_files` and extra keyword arguments passed to the constructor are not modelled; metadata arrives already parsed.
- DefocusedDatasets.DefocusedDataset.Filter: writing into `images` ignores image shapes. It does not model the numpy broadcasting error after a setter has replaced `images` with a stack of another shape.
- DefocusedDatasets.AssignDefvals: only numbers, arrays and None are modelled as arguments. Other objects with a length are not.
- DefocusedDatasets.DefocusedDataset.Copy: stacks are immutable values, so the copy never shares storage with the original. The model does not state that separately.
- TieParameters.TieParams.constructor: `AsStack` covers a list of images and the wrapping of a 2-D array at lines 93-95; `None`, objects numpy cannot measure and arrays of other dimensions are not modelled. Nor are the verbose print, `qi` and `axes`.
- TieParameters.TieParams.MakeMask: the explicit `imstack` argument is not modelled; the mask always uses both stacks of the object.
- `pre_Lap`, `get_dist` and `select_ROI` of `TIE_params` are floating-point or interactive and are left out.
- `save_results`: the choice of keys to save sits inside unresolved merge-conflict markers, and is left out.
- PyTIE/TIE_reconstruct.py holds unresolved merge-conflict markers in code at lines 643-650 and 683-691, so the file does not parse as given; further markers at lines 37-85, 89-140 and 352-389 sit inside docstrings. `Symmetrize`, `ReconDims` and the save-name members assume the conflict is resolved; the finding about line 641 holds whichever side is kept.
- TieParameters.InitCheck / TieParameters.TieParams.constructor: averaging the unflip and flip in-focus images at PyTIE/TIE_params.py:135 is refused whenever the two shapes differ, while numpy also accepts shapes that broadcast, such as (1, w) against (h, w); the model keeps the in-focus image at the stack's shape.
- Floating point is replaced by exact reals: the mask side in `draw_square_mask`, the parameter bounds in the validators, and the shifts in `get_shift_rot_macro`. Python writes a negated zero `y_shift` as `y=-0.0` (GUI/align.py:351), while `TranslationCommand` formats `num(-yShift)`, which equals `num(0.0)`. `update_rotxy`/`update_mask_size` in `retrieve_transform` are widget updates. The model returns the new transform and whether it would be applied.
- PyText.ParseInt and PyText.ParseFloat accept a sign, ASCII digits, a decimal point and an exponent. They do not accept underscores between digits, non-ASCII digits, 'inf' or 'nan'.
- Left out from `set_crop_data`: the rounding-based squaring after the bounding box, and everything after it.
- The GUI event loop, widgets, layouts and styling, threads, the subprocess queue and FIJI itself are left out. So are the other macro builders of `GUI/align.py` (`ls_alignment`, `bUnwarp_align`, `pre_ls_alignment`, `run_bUnwarp_align`, `apply_transform`).
- `GUI/gui_help.py` repeats `draw_square_mask` and `represents_float` of `GUI/util.py` and is not modelled separately. `PyLorentz/utils/magnetizations.py` is independent floating-point field generation and is left out.

## Findings

| source | as written | input that shows it | evidently intended | confidence | as-written member | corrected member |
|---|---|---|---|---|---|---|
| PyTIE/TIE_params.py:192 | `np.concatenate([self.imstack, self.flipstack])` with the default `flipstack=[]` joins a 3-D stack and a 1-D empty array | an unflip-only series of three same-shaped images with no_mask False: ValueError in the constructor | build the mask from the unflip stack alone when there is no flip stack | medium, not executed | TieParameters.MaskStackAsWritten, TieParameters.UnflipOnlyMaskFails, TieParameters.UnflipOnlyConstructionFails | TieParameters.MaskStack |
| PyTIE/TIE_reconstruct.py:641 | with long_deriv, `defval = 'long'` is later formatted with `{defval:g}`, which strings do not support | long_deriv True and any result to save: ValueError at the file name | name files `dataname_long_key.tiff`, as the docstring describes | high, not executed | TieReconstruct.SaveNameAsWritten, TieReconstruct.SaveNameAgrees | TieReconstruct.SaveNamesDistinct |
