/**
 * The string and index logic of GUI/align.py, which builds the FIJI
 * macros for aligning a through-focal series: reading an .fls file into
 * under-focus, in-focus and over-focus groups, deciding which window
 * holds which group and whether it is flipped, and assembling the macro
 * text for transformations, trimming, reversing and ordering stacks.
 *
 * Reading a file is replaced by its text; running FIJI is not modelled.
 */
module Align {
  import opened Results
  import opened PyText
  import PySeq
  import opened GuiUtil

  /** `n` spaces: the indentation the triple-quoted macro templates carry. */
  function Spaces(n: nat): (s: string)
    ensures |s| == n && forall i :: 0 <= i < n ==> s[i] == ' '
  {
    seq(n, _ => ' ')
  }

  /** "unflip" contains "flip": a reference naming the unflipped series also names "flip". */
  lemma UnflipMentionsFlip(ref: string)
    ensures Contains(ref, "unflip") ==> Contains(ref, "flip")
  {
    if Contains(ref, "unflip") {
      ContainsInfix("un", "flip", "");
      assert "un" + "flip" + "" == "unflip";
      ContainsTransitive(ref, "unflip", "flip");
    }
  }

  /** A string never contains a longer one. */
  lemma ContainsNotLonger(s: string, sub: string)
    requires Contains(s, sub)
    ensures |sub| <= |s|
  {
    var a, b := ContainsSplit(s, sub);
  }

  // ---------------------------------------------------------------
  // fijify_macro, format_macro
  // ---------------------------------------------------------------

  /** `s.isspace()`: non-empty and made of whitespace only. */
  predicate IsSpaceString(s: string) {
    s != [] && IsSpace(s[0]) && (|s| == 1 || IsSpaceString(s[1..]))
  }

  /** What follows a stripped line: a newline after a statement, a space after other text, nothing after a blank line. */
  function LineEnding(line: string): string
  {
    if Contains(line, ";") then "\n"
    else if line != [] && !IsSpaceString(line) then " "
    else ""
  }

  /** A line of macro text as FIJI receives it: stripped and followed by its ending. */
  function FijiPiece(line: string): string {
    var t := Strip(line);
    t + LineEnding(t)
  }

  /** The pieces of all lines, in order, before backslashes are replaced. */
  function FijiText(lines: seq<string>): string {
    ConcatMap(lines, FijiPiece)
  }

  /** `f` applied to every element, the results concatenated. */
  function ConcatMap(xs: seq<string>, f: string -> string): string {
    if xs == [] then ""
    else ConcatMap(xs[..|xs| - 1], f) + f(xs[|xs| - 1])
  }

  lemma {:induction false} ConcatMapAppend(a: seq<string>, b: seq<string>, f: string -> string)
    ensures ConcatMap(a + b, f) == ConcatMap(a, f) + ConcatMap(b, f)
    decreases |b|
  {
    if b == [] {
      assert a + b == a;
    } else {
      var b' := b[..|b| - 1];
      assert (a + b)[..|a + b| - 1] == a + b';
      ConcatMapAppend(a, b', f);
    }
  }

  /** The text of consecutive blocks of lines is the concatenation of their texts. */
  lemma FijiTextAppend(a: seq<string>, b: seq<string>)
    ensures FijiText(a + b) == FijiText(a) + FijiText(b)
  {
    ConcatMapAppend(a, b, FijiPiece);
  }

  /** A blank line contributes nothing. */
  lemma FijiBlankLine(lines: seq<string>, blank: string)
    requires Strip(blank) == []
    ensures FijiText(lines + [blank]) == FijiText(lines)
  {
    assert (lines + [blank])[..|lines|] == lines;
    assert FijiPiece(blank) == [];
  }

  /** A statement line ends in a newline, any other non-blank line in one space. */
  lemma FijiLineEnding(line: string)
    ensures Contains(Strip(line), ";") ==> FijiPiece(line) == Strip(line) + "\n"
    ensures !Contains(Strip(line), ";") && Strip(line) != [] ==> FijiPiece(line) == Strip(line) + " "
  {
    var t := Strip(line);
    if t != [] {
      assert !IsSpace(t[0]);
    }
  }

  /**
   * `fijify_macro(unready_macro)`: each line of the macro is stripped and
   * followed by its ending; every step joins through `join`, so every
   * backslash ends up a forward slash.
   */
  method FijifyMacro(unreadyMacro: string) returns (fijiReadyMacro: string)
    ensures fijiReadyMacro == Slashed(FijiText(SplitLines(unreadyMacro)))
    ensures NoBackslash(fijiReadyMacro)
  {
    var lines := SplitLines(unreadyMacro);
    fijiReadyMacro := "";
    assert Slashed("") == "";
    for k := 0 to |lines|
      invariant fijiReadyMacro == Slashed(FijiText(lines[..k]))
    {
      var line := Strip(lines[k]);
      var whitespace := "";
      if Contains(line, ";") {
        whitespace := "\n";
      } else if line != [] && !IsSpaceString(line) {
        whitespace := " ";
      }
      assert line + whitespace == FijiPiece(lines[k]);
      FijifyStep(fijiReadyMacro, lines, k, line, whitespace);
      fijiReadyMacro := Join([fijiReadyMacro, line, whitespace], "");
    }
    assert lines[..|lines|] == lines;
  }

  /** Joining the next line and its ending onto the text of the earlier lines. */
  lemma FijifyStep(acc: string, lines: seq<string>, k: nat, line: string, whitespace: string)
    requires k < |lines|
    requires acc == Slashed(FijiText(lines[..k])) && line + whitespace == FijiPiece(lines[k])
    ensures Join([acc, line, whitespace], "") == Slashed(FijiText(lines[..k + 1]))
  {
    FijiTextStep(lines, k);
    JoinTriple(acc, line, whitespace);
    SlashedAppend(FijiText(lines[..k]), line + whitespace);
  }

  lemma FijiTextStep(lines: seq<string>, k: nat)
    requires k < |lines|
    ensures FijiText(lines[..k + 1]) == FijiText(lines[..k]) + FijiPiece(lines[k])
  {
    assert lines[..k + 1][..k] == lines[..k];
  }

  /** `format_macro(all_macros)`: the macros joined by newlines and then made FIJI-ready. */
  method FormatMacro(allMacros: seq<string>) returns (fullMacro: string)
    ensures fullMacro == Slashed(FijiText(SplitLines(Join(allMacros, "\n"))))
  {
    var joinedMacro := Join(allMacros, "\n");
    fullMacro := FijifyMacro(joinedMacro);
  }

  // ---------------------------------------------------------------
  // pull_image_files, grab_fls_data
  // ---------------------------------------------------------------

  /**
   * `pull_image_files(fls_file, check_align)` on the text of the .fls
   * file.  The first line gives the number of files n; with k = n // 2,
   * lines 1..k are the under-focus images, line k + 1 the in-focus image
   * and lines k + 2 .. 2k + 1 the over-focus images.  The under-focus
   * group is returned reversed.  With `check_align` only the two
   * neighbours of the in-focus line are kept.
   */
  function PullImageFiles(flsText: string, checkAlign: bool): (r: Result<seq<seq<string>>>)
    ensures SplitLines(flsText) == [] ==> r == Err(IndexError)
    ensures SplitLines(flsText) != [] && ParseInt(SplitLines(flsText)[0]).None? ==> r == Err(ValueError)
    ensures r.Ok? ==> |r.value| == 3 && |r.value[1]| == 1
    ensures r.Ok? && checkAlign ==> |r.value[0]| == 1 && |r.value[2]| == 1
  {
    var flsLines := SplitLines(flsText);
    if flsLines == [] then Err(IndexError)
    else match ParseInt(flsLines[0])
      case None => Err(ValueError)
      case Some(numFiles) => PullGroups(flsLines, numFiles, checkAlign)
  }

  /** The body of `pull_image_files` once the file count `numFiles` is read. */
  function PullGroups(flsLines: seq<string>, numFiles: int, checkAlign: bool): (r: Result<seq<seq<string>>>)
    ensures r.Ok? ==> |r.value| == 3 && |r.value[1]| == 1
    ensures r.Ok? && checkAlign ==> |r.value[0]| == 1 && |r.value[2]| == 1
  {
    var underSplit := 1;
    var focusSplit := numFiles / 2 + underSplit;
    var overSplit := numFiles / 2 + focusSplit;
    match PySeq.Index(flsLines, focusSplit)
    case Err(e) => Err(e)
    case Ok(focusFile) =>
      if checkAlign then
        match PySeq.Index(flsLines, focusSplit - 1)
        case Err(e) => Err(e)
        case Ok(under) =>
          match PySeq.Index(flsLines, focusSplit + 1)
          case Err(e) => Err(e)
          case Ok(over) => Ok([PySeq.Reverse([under]), [focusFile], [over]])
      else
        var underFiles := PySeq.Slice(flsLines, underSplit, focusSplit);
        var overFiles := PySeq.Slice(flsLines, focusSplit + 1, overSplit + 1);
        Ok([PySeq.Reverse(underFiles), [focusFile], overFiles])
  }

  /** The number of files an .fls file announces, when its first line is an integer. */
  predicate Announces(lines: seq<string>, n: nat) {
    lines != [] && ParseInt(lines[0]) == Some(n)
  }

  /** Lines 1 .. k reversed, line k + 1, and lines k + 2 .. 2k + 1. */
  function AnnouncedGroups(lines: seq<string>, k: nat): seq<seq<string>>
    requires |lines| >= 2 * k + 2
  {
    [PySeq.Reverse(lines[1..k + 1]), [lines[k + 1]], lines[k + 2..2 * k + 2]]
  }

  /** With enough lines, the three groups are the announced ranges of the file. */
  lemma PullImageFilesGroups(flsText: string, n: nat)
    requires Announces(SplitLines(flsText), n)
    requires |SplitLines(flsText)| >= 2 * (n / 2) + 2
    ensures PullImageFiles(flsText, false) == Ok(AnnouncedGroups(SplitLines(flsText), n / 2))
  {
    PullGroupsRanges(SplitLines(flsText), n);
  }

  lemma PullGroupsRanges(lines: seq<string>, n: nat)
    requires |lines| >= 2 * (n / 2) + 2
    ensures PullGroups(lines, n, false) == Ok(AnnouncedGroups(lines, n / 2))
  {
    var k := n / 2;
    assert PySeq.Index(lines, k + 1) == Ok(lines[k + 1]);
    assert PySeq.Slice(lines, 1, k + 1) == lines[1..k + 1];
    assert PySeq.Slice(lines, k + 2, 2 * k + 2) == lines[k + 2..2 * k + 2];
  }

  /** Parameter checking keeps the in-focus line and the line on either side of it. */
  lemma PullImageFilesCheckAlign(flsText: string, n: nat)
    requires Announces(SplitLines(flsText), n)
    requires |SplitLines(flsText)| >= n / 2 + 3
    ensures var lines, k := SplitLines(flsText), n / 2;
      PullImageFiles(flsText, true) == Ok([[lines[k]], [lines[k + 1]], [lines[k + 2]]])
  {
    PullGroupsNeighbours(SplitLines(flsText), n);
  }

  lemma PullGroupsNeighbours(lines: seq<string>, n: nat)
    requires |lines| >= n / 2 + 3
    ensures var k := n / 2;
      PullGroups(lines, n, true) == Ok([[lines[k]], [lines[k + 1]], [lines[k + 2]]])
  {
    var k := n / 2;
    assert PySeq.Index(lines, k + 1) == Ok(lines[k + 1]);
    assert PySeq.Index(lines, k) == Ok(lines[k]);
    assert PySeq.Index(lines, k + 2) == Ok(lines[k + 2]);
    assert PySeq.Reverse([lines[k]]) == [lines[k]];
  }

  /**
   * Flattening the pulled groups gives back the image lines of the file in
   * file order: with `PullImageFilesGroups`, `flatten_order_list` undoes
   * the reversal `pull_image_files` applies to the under-focus group.
   */
  lemma PullThenFlatten(lines: seq<string>, k: nat)
    requires |lines| >= 2 * k + 2
    ensures FlattenOrderList(AnnouncedGroups(lines, k)) == Ok(lines[1..2 * k + 2])
  {
    var a, b, c := lines[1..k + 1], [lines[k + 1]], lines[k + 2..2 * k + 2];
    FlattenUndoesReversal(a, b, c);
    assert a + b + c == lines[1..2 * k + 2];
  }

  /**
   * `grab_fls_data(fls1, fls2, tfs_value, fls_value, check_sift)` on the
   * texts of the two .fls files.  With one .fls file an 'Unflip/Flip'
   * series reads the same file twice and a single series gets no second
   * list; with two, each list comes from its own file.  Any other
   * `fls_value` leaves `files1` unbound.
   */
  function GrabFlsData(fls1: string, fls2: string, tfsValue: string, flsValue: string,
                       checkSift: bool): (r: Result<(seq<seq<string>>, seq<seq<string>>)>)
    ensures flsValue != "One" && flsValue != "Two" ==> r == Err(UnboundLocalError)
    ensures flsValue == "One" ==>
      (r.Ok? <==> PullImageFiles(fls1, checkSift).Ok?)
      && (r.Ok? ==> r.value.0 == PullImageFiles(fls1, checkSift).value)
      && (r.Ok? && tfsValue == "Unflip/Flip" ==> r.value.1 == r.value.0)
      && (r.Ok? && tfsValue != "Unflip/Flip" ==> r.value.1 == [])
    ensures flsValue == "Two" ==>
      (r.Ok? <==> PullImageFiles(fls1, checkSift).Ok? && PullImageFiles(fls2, checkSift).Ok?)
      && (r.Ok? ==> r.value == (PullImageFiles(fls1, checkSift).value, PullImageFiles(fls2, checkSift).value))
  {
    if flsValue == "One" then
      match PullImageFiles(fls1, checkSift)
      case Err(e) => Err(e)
      case Ok(files1) =>
        if tfsValue == "Unflip/Flip" then
          match PullImageFiles(fls1, checkSift)
          case Err(e) => Err(e)
          case Ok(files2) => Ok((files1, files2))
        else Ok((files1, []))
    else if flsValue == "Two" then
      match PullImageFiles(fls1, checkSift)
      case Err(e) => Err(e)
      case Ok(files1) =>
        match PullImageFiles(fls2, checkSift)
        case Err(e) => Err(e)
        case Ok(files2) => Ok((files1, files2))
    else Err(UnboundLocalError)
  }

  // ---------------------------------------------------------------
  // Windows: focus, flip, short names
  // ---------------------------------------------------------------

  /**
   * `determine_window_focus(window)`: windows are numbered from 1, three
   * per orientation (unflip, then flip) and in each the under-focus,
   * in-focus and over-focus image.  `pos` is False exactly for the
   * under-focus windows.
   */
  function DetermineWindowFocus(window: int): (r: ((int, int), bool))
    ensures 0 <= r.0.1 < 3 && 3 * r.0.0 + r.0.1 == window - 1
    ensures r.1 <==> r.0.1 != 0
  {
    var pos := (window - 1) % 3 > 0;
    var orientationNum := (window - 1) / 3;
    var focusNum := (window - 1) % 3;
    ((orientationNum, focusNum), pos)
  }

  /**
   * `check_image_flip(window, path1, path2, ref)`: windows 1-3 show the
   * unflipped series from `path1`, the others the flipped series from
   * `path2`.  A window is flipped exactly when its orientation differs
   * from the reference; a reference that names neither leaves `flip`
   * None.
   */
  function CheckImageFlip(window: int, path1: string, path2: string, ref: string): (r: (Option<bool>, string))
    ensures r.1 == if window <= 3 then path1 else path2
    ensures r.0.Some? <==> Contains(ref, "flip")
    ensures r.0.Some? ==> (r.0.value <==> ((window > 3) <==> Contains(ref, "unflip")))
  {
    UnflipMentionsFlip(ref);
    if window <= 3 then
      (if Contains(ref, "unflip") then Some(false)
       else if Contains(ref, "flip") then Some(true)
       else None, path1)
    else
      (if Contains(ref, "unflip") then Some(true)
       else if Contains(ref, "flip") then Some(false)
       else None, path2)
  }

  /**
   * `set_shortnames(files, place)`: the file group at `place` and the
   * window title made of the orientation ('u' or 'f') and the focus
   * ('-', '0' or '+').  A place outside the six leaves both unbound.
   */
  function SetShortnames(files: seq<seq<seq<string>>>, place: (int, int)): (r: Result<(seq<string>, string)>)
    ensures !(0 <= place.0 < 2 && 0 <= place.1 < 3) ==> r == Err(UnboundLocalError)
    ensures 0 <= place.0 < 2 && 0 <= place.1 < 3 ==>
      (r.Ok? <==> place.0 < |files| && place.1 < |files[place.0]|)
    ensures r.Ok? ==> r.value.0 == files[place.0][place.1]
    ensures r.Ok? ==>
      (|r.value.1| == 3 && r.value.1[1] == '_'
       && (r.value.1[0] == 'u' <==> place.0 == 0) && (r.value.1[0] == 'f' <==> place.0 == 1)
       && (r.value.1[2] == '-' <==> place.1 == 0) && (r.value.1[2] == '0' <==> place.1 == 1)
       && (r.value.1[2] == '+' <==> place.1 == 2))
  {
    var (o, f) := place;
    if !(0 <= o < 2 && 0 <= f < 3) then Err(UnboundLocalError)
    else
      var short := (if o == 0 then "u" else "f") + "_" + (if f == 0 then "-" else if f == 1 then "0" else "+");
      match PySeq.Index(files, o)
      case Err(e) => Err(e)
      case Ok(orientation) =>
        match PySeq.Index(orientation, f)
        case Err(e) => Err(e)
        case Ok(fnames) => Ok((fnames, short))
  }

  /**
   * For windows 1 to 6 the three helpers agree: the title starts with 'u'
   * exactly for the windows read from the first path, and ends with '-'
   * exactly for the windows whose `pos` is False.
   */
  lemma WindowNamingAgrees(window: int, files: seq<seq<seq<string>>>, path1: string, path2: string, ref: string)
    requires 1 <= window <= 6
    requires SetShortnames(files, DetermineWindowFocus(window).0).Ok?
    ensures var short := SetShortnames(files, DetermineWindowFocus(window).0).value.1;
      (short[0] == 'u' <==> CheckImageFlip(window, path1, path2, ref).1 == path1 && window <= 3)
      && (short[2] == '-' <==> !DetermineWindowFocus(window).1)
  {
  }

  // ---------------------------------------------------------------
  // get_shift_rot_macro
  // ---------------------------------------------------------------

  /** The horizontal flip command, present exactly when `horizontal` is set. */
  function FlipCommand(horizontal: bool, stack: bool): (r: string)
    ensures r == [] <==> !horizontal
    ensures horizontal ==> Contains(r, "Flip Horizontally")
  {
    var runFlipStack := if stack then ", \"stack\"" else "";
    if horizontal then
      var head, tail := "run(\"", "\"" + runFlipStack + ");";
      ContainsInfix(head, "Flip Horizontally", tail);
      head + "Flip Horizontally" + tail
    else ""
  }

  /**
   * The rotation command, present exactly when `rot` is not zero; it
   * rotates by `-rot`, formatted by `num`.
   */
  function RotationCommand(rot: real, stack: bool, num: real -> string): (r: string)
    ensures r == [] <==> rot == 0.0
    ensures rot != 0.0 ==> Contains(r, "angle=" + num(-rot) + " ")
  {
    var runStack := if stack then " stack" else "";
    if rot != 0.0 then
      var head := "\n" + Spaces(29) + "run(\"Rotate... \", \"";
      var tail := "grid=1 interpolation=Bilinear" + runStack + "\");\n" + Spaces(26);
      ContainsInfix(head, "angle=" + num(-rot) + " ", tail);
      head + ("angle=" + num(-rot) + " ") + tail
    else ""
  }

  /**
   * The translation command, present exactly when either shift is not
   * zero; it moves by `x_shift` and by `-y_shift`.
   */
  function TranslationCommand(xShift: real, yShift: real, stack: bool, num: real -> string): (r: string)
    ensures r == [] <==> xShift == 0.0 && yShift == 0.0
    ensures r != [] ==> Contains(r, "x=" + num(xShift) + " y=" + num(-yShift) + " ")
  {
    var runStack := if stack then " stack" else "";
    if xShift != 0.0 || yShift != 0.0 then
      var head := "\n" + Spaces(32) + "run(\"Translate...\", \"";
      var mid := "x=" + num(xShift) + " y=" + num(-yShift) + " ";
      var tail := "interpolation=None" + runStack + "\");\n" + Spaces(29);
      ContainsInfix(head, mid, tail);
      head + mid + tail
    else ""
  }

  /**
   * `get_shift_rot_macro((rot, x_shift, y_shift, horizontal), stack)`:
   * the flip, rotation and translation commands on three template lines.
   * `num` is Python's formatting of a number in an f-string. Each command
   * appears when its condition holds, and with no transformation at all
   * only the template line breaks remain.
   */
  function GetShiftRotMacro(rot: real, xShift: real, yShift: real, horizontal: bool, stack: bool,
                            num: real -> string): (m: string)
    ensures horizontal ==> Contains(m, "Flip Horizontally")
    ensures rot != 0.0 ==> Contains(m, "angle=" + num(-rot) + " ")
    ensures xShift != 0.0 || yShift != 0.0 ==> Contains(m, "x=" + num(xShift) + " y=" + num(-yShift) + " ")
    ensures !horizontal && rot == 0.0 && xShift == 0.0 && yShift == 0.0 ==> m == TemplateBreak() + TemplateBreak()
  {
    var f, r, t := FlipCommand(horizontal, stack), RotationCommand(rot, stack, num),
                   TranslationCommand(xShift, yShift, stack, num);
    var g := TemplateBreak();
    ContainsInJoin(f, g, r, t, "Flip Horizontally");
    ContainsInJoin(f, g, r, t, "angle=" + num(-rot) + " ");
    ContainsInJoin(f, g, r, t, "x=" + num(xShift) + " y=" + num(-yShift) + " ");
    f + g + r + g + t
  }

  /** The line break and indentation between the three template lines. */
  function TemplateBreak(): string {
    "\n" + Spaces(26)
  }

  /** Whatever the left part contains, the whole contains. */
  lemma ContainsLeft(x: string, y: string, sub: string)
    requires Contains(x, sub)
    ensures Contains(x + y, sub)
  {
    var a, b := ContainsSplit(x, sub);
    ContainsInfix(a, sub, b + y);
    assert a + sub + (b + y) == x + y;
  }

  /** Whatever the right part contains, the whole contains. */
  lemma ContainsRight(x: string, y: string, sub: string)
    requires Contains(y, sub)
    ensures Contains(x + y, sub)
  {
    var a, b := ContainsSplit(y, sub);
    ContainsInfix(x + a, sub, b);
    assert (x + a) + sub + b == x + y;
  }

  /** What any of the three commands contains, the joined macro contains. */
  lemma ContainsInJoin(f: string, g: string, r: string, t: string, sub: string)
    ensures Contains(f, sub) || Contains(r, sub) || Contains(t, sub) ==> Contains(f + g + r + g + t, sub)
  {
    if Contains(f, sub) {
      ContainsLeft(f, g, sub);
      ContainsLeft(f + g, r, sub);
      ContainsLeft(f + g + r, g, sub);
      ContainsLeft(f + g + r + g, t, sub);
    } else if Contains(r, sub) {
      ContainsRight(f + g, r, sub);
      ContainsLeft(f + g + r, g, sub);
      ContainsLeft(f + g + r + g, t, sub);
    } else if Contains(t, sub) {
      ContainsRight(f + g + r + g, t, sub);
    }
  }

  // ---------------------------------------------------------------
  // Trimming and reversing stacks
  // ---------------------------------------------------------------

  const DeleteSlice: string := "run(\"Delete Slice\");"
  const ReverseStack: string := "run(\"Reverse\");"

  /** The overfocus stack of the reference orientation, which keeps its in-focus image. */
  function RefOverfocus(ref: string): string {
    if Contains(ref, "unflip") then "u_+" else "f_+"
  }

  /**
   * `trim_and_reverse_stacks(filenames, shortname, ref, pos)`: a stack of
   * more than one file loses its extra in-focus slice unless it is the
   * overfocus stack of the reference orientation, and an under-focus
   * stack that lost it is also reversed.
   */
  function TrimAndReverseStacks<T>(filenames: seq<T>, shortname: string, ref: string, pos: bool): (r: (string, string))
    ensures r.0 == [] || r.0 == DeleteSlice
    ensures r.1 == [] || r.1 == ReverseStack
    ensures r.0 == DeleteSlice <==> |filenames| > 1 && Contains(ref, "flip") && shortname != RefOverfocus(ref)
    ensures r.1 == ReverseStack <==> r.0 == DeleteSlice && !pos
  {
    UnflipMentionsFlip(ref);
    if |filenames| > 1 && ((shortname != "u_+" && Contains(ref, "unflip"))
                          || (shortname != "f_+" && Contains(ref, "flip") && !Contains(ref, "unflip"))) then
      (DeleteSlice, if !pos then ReverseStack else "")
    else ("", "")
  }

  /** `trim_and_reverse_single_stack(filenames, shortname)`: only the under-focus stack of a single series, and only with more than one file. */
  function TrimAndReverseSingleStack<T>(filenames: seq<T>, shortname: string): (r: (string, string))
    ensures r.0 == DeleteSlice <==> |filenames| > 1 && shortname == "-under-"
    ensures r.0 == [] <==> r.0 != DeleteSlice
    ensures r.1 == (if r.0 == DeleteSlice then ReverseStack else "")
  {
    if |filenames| > 1 && shortname == "-under-" then (DeleteSlice, ReverseStack) else ("", "")
  }

  // ---------------------------------------------------------------
  // delete_excess_images_macro
  // ---------------------------------------------------------------

  /** The groups of a two-level file list, in order. */
  function Groups(files: seq<seq<seq<string>>>): (gs: seq<seq<string>>)
  {
    if files == [] then [] else Groups(files[..|files| - 1]) + files[|files| - 1]
  }

  lemma {:induction false} GroupsAppend(a: seq<seq<seq<string>>>, b: seq<seq<seq<string>>>)
    ensures Groups(a + b) == Groups(a) + Groups(b)
    decreases |b|
  {
    if b == [] {
      assert a + b == a;
    } else {
      var b' := b[..|b| - 1];
      assert (a + b)[..|a + b| - 1] == a + b';
      GroupsAppend(a, b');
    }
  }

  /** Some single-file group has no short name: looking its name up raises IndexError. */
  predicate MissingName(groups: seq<seq<string>>, names: seq<string>) {
    exists k :: 0 <= k < |groups| && |groups[k]| == 1 && k >= |names|
  }

  /** The command deleting the extra in-focus slice of window `name`. */
  function DeleteCommand(name: string): string {
    "selectWindow(\"" + name + "\");\n" + Spaces(29) + DeleteSlice + "\n" + Spaces(29)
  }

  /** Whether a stack of `count` files still carries an extra in-focus slice after alignment. */
  predicate NeedsLateDelete(count: nat, name: string, ref: string) {
    count == 1 && Contains(ref, "flip") && name != RefOverfocus(ref)
  }

  /** The macro lines for the first `|groups|` windows, each preceded by a newline, before backslashes are replaced. */
  function DeleteLines(groups: seq<seq<string>>, names: seq<string>, ref: string): string
    requires !MissingName(groups, names)
  {
    if groups == [] then ""
    else
      var k := |groups| - 1;
      DeleteLines(groups[..k], names, ref) + ("\n" + DeleteLine(groups[k], names, k, ref))
  }

  /** The delete command for group number `k`, or nothing. */
  function DeleteLine(group: seq<string>, names: seq<string>, k: nat, ref: string): string
    requires |group| == 1 ==> k < |names|
  {
    if |group| == 1 && NeedsLateDelete(1, names[k], ref) then DeleteCommand(names[k]) else ""
  }

  lemma DeleteLinesStep(before: seq<seq<string>>, group: seq<string>, names: seq<string>, ref: string)
    requires !MissingName(before, names)
    requires |group| == 1 ==> |before| < |names|
    ensures !MissingName(before + [group], names)
    ensures DeleteLines(before + [group], names, ref)
         == DeleteLines(before, names, ref) + ("\n" + DeleteLine(group, names, |before|, ref))
  {
    var after := before + [group];
    assert after[..|before|] == before;
    forall k | 0 <= k < |after| && |after[k]| == 1 ensures k < |names| {
      if k < |before| {
        assert after[k] == before[k];
      }
    }
  }

  /** Group `j` of file list `i` sits at position `|Groups(files[..i])| + j` of all the groups. */
  lemma GroupsIndex(files: seq<seq<seq<string>>>, i: nat, j: nat)
    requires i < |files| && j < |files[i]|
    ensures |Groups(files[..i])| + j < |Groups(files)|
    ensures Groups(files)[|Groups(files[..i])| + j] == files[i][j]
  {
    GroupsAppend(files[..i], files[i..]);
    assert files[..i] + files[i..] == files;
    GroupsAppend([files[i]], files[i + 1..]);
    assert [files[i]] + files[i + 1..] == files[i..];
    assert Groups([files[i]]) == files[i] by {
      assert [files[i]][..0] == [];
    }
  }

  lemma AppendSlice<T>(done: seq<T>, s: seq<T>, j: nat)
    requires j < |s|
    ensures done + s[..j + 1] == (done + s[..j]) + [s[j]]
  {
    assert s[..j + 1] == s[..j] + [s[j]];
  }

  /** The source's two orientation tests pick the same delete command as `DeleteLine`. */
  lemma LateDeleteTest(group: seq<string>, names: seq<string>, k: nat, ref: string, delete: string)
    requires |group| == 1 ==> k < |names|
    requires delete == (if |group| == 1 && ((names[k] != "u_+" && Contains(ref, "unflip"))
                           || (names[k] != "f_+" && Contains(ref, "flip") && !Contains(ref, "unflip")))
                        then DeleteCommand(names[k]) else "")
    ensures delete == DeleteLine(group, names, k, ref)
  {
    UnflipMentionsFlip(ref);
  }

  /**
   * Every non-empty stack loses its extra in-focus slice exactly once,
   * either right after alignment (more than one file) or in the excess
   * image macro (one file), unless it is the overfocus stack of the
   * reference orientation or the reference names no orientation.
   */
  lemma DeleteExactlyOnce(group: seq<string>, name: string, ref: string, pos: bool)
    requires |group| >= 1
    ensures (TrimAndReverseStacks(group, name, ref, pos).0 == DeleteSlice || NeedsLateDelete(|group|, name, ref))
            <==> Contains(ref, "flip") && name != RefOverfocus(ref)
    ensures !(TrimAndReverseStacks(group, name, ref, pos).0 == DeleteSlice && NeedsLateDelete(|group|, name, ref))
  {
  }

  /**
   * The body of the inner loop of `delete_excess_images_macro` for the
   * window at position `index`: a single-file group needs its short name
   * and gets the delete command when its orientation calls for one.
   */
  method DeleteFor(group: seq<string>, shortNames: seq<string>, index: nat, ref: string)
    returns (r: Result<string>)
    ensures r.Err? <==> |group| == 1 && index >= |shortNames|
    ensures r.Err? ==> r.error == IndexError
    ensures r.Ok? ==> r.value == DeleteLine(group, shortNames, index, ref)
  {
    var delete := "";
    if |group| == 1 {
      if index >= |shortNames| {
        return Err(IndexError);
      }
      if shortNames[index] != "u_+" && Contains(ref, "unflip") {
        delete := DeleteCommand(shortNames[index]);
      } else if shortNames[index] != "f_+" && Contains(ref, "flip") && !Contains(ref, "unflip") {
        delete := DeleteCommand(shortNames[index]);
      }
    }
    LateDeleteTest(group, shortNames, index, ref, delete);
    return Ok(delete);
  }

  /**
   * `delete_excess_images_macro(files, short_names, ref)`: one line per
   * group, holding the delete command for the single-file groups that
   * need it; IndexError when such a group has no short name.
   */
  method DeleteExcessImagesMacro(files: seq<seq<seq<string>>>, shortNames: seq<string>, ref: string)
    returns (r: Result<string>)
    ensures r.Err? <==> MissingName(Groups(files), shortNames)
    ensures r.Err? ==> r.error == IndexError
    ensures r.Ok? ==> r.value == Slashed(DeleteLines(Groups(files), shortNames, ref))
  {
    var trimmedMacro := "";
    var index := 0;
    assert Slashed("") == "";
    for i := 0 to |files|
      invariant index == |Groups(files[..i])|
      invariant !MissingName(Groups(files[..i]), shortNames)
      invariant trimmedMacro == Slashed(DeleteLines(Groups(files[..i]), shortNames, ref))
    {
      ghost var done := Groups(files[..i]);
      assert files[..i + 1][..i] == files[..i];
      assert Groups(files[..i + 1]) == done + files[i];
      assert done + files[i][..0] == done;
      for j := 0 to |files[i]|
        invariant index == |done| + j
        invariant !MissingName(done + files[i][..j], shortNames)
        invariant trimmedMacro == Slashed(DeleteLines(done + files[i][..j], shortNames, ref))
      {
        ghost var before := done + files[i][..j];
        AppendSlice(done, files[i], j);
        var delete := DeleteFor(files[i][j], shortNames, index, ref);
        if delete.Err? {
          GroupsIndex(files, i, j);
          return Err(IndexError);
        }
        assert |before| == index;
        DeleteLinesStep(before, files[i][j], shortNames, ref);
        JoinAccumulate(trimmedMacro, DeleteLines(before, shortNames, ref), delete.value, "\n");
        trimmedMacro := Join([trimmedMacro, delete.value], "\n");
        assert trimmedMacro == Slashed(DeleteLines(before + [files[i][j]], shortNames, ref));
        index := index + 1;
      }
      assert files[i][..|files[i]|] == files[i];
    }
    assert files[..|files|] == files;
    return Ok(trimmedMacro);
  }

  // ---------------------------------------------------------------
  // order_windows_for_selection_macro
  // ---------------------------------------------------------------

  /** Whether window `name` takes part in the concatenated stack. */
  predicate Selected(name: string, ref: string) {
    (Contains(ref, "unflip") && name != "u_0")
    || (Contains(ref, "flip") && !Contains(ref, "unflip") && name != "f_0")
    || Contains(name, "-under-") || Contains(name, "+over+")
  }

  /** The selected windows, in input order. */
  function Selection(names: seq<string>, ref: string): (sel: seq<string>)
    ensures |sel| <= |names|
  {
    if names == [] then []
    else
      var last := names[|names| - 1];
      Selection(names[..|names| - 1], ref) + (if Selected(last, ref) then [last] else [])
  }

  /** `names` without the entries equal to `x`. */
  function Without(names: seq<string>, x: string): seq<string>
  {
    if names == [] then []
    else
      var last := names[|names| - 1];
      Without(names[..|names| - 1], x) + (if last != x then [last] else [])
  }

  /** With an 'unflip' reference every window but the in-focus unflipped one is selected. */
  lemma {:induction false} UnflipReferenceSelection(names: seq<string>, ref: string)
    requires Contains(ref, "unflip")
    ensures Selection(names, ref) == Without(names, "u_0")
    decreases |names|
  {
    if names != [] {
      var last := names[|names| - 1];
      UnflipReferenceSelection(names[..|names| - 1], ref);
      if last == "u_0" {
        if Contains(last, "-under-") {
          ContainsNotLonger(last, "-under-");
        }
        if Contains(last, "+over+") {
          ContainsNotLonger(last, "+over+");
        }
      }
    }
  }

  /** `selectWindow` commands for the selected windows, each on its own line. */
  function SelectCommands(sel: seq<string>): string {
    if sel == [] then ""
    else SelectCommands(sel[..|sel| - 1]) + ("\n" + SelectWindow(sel[|sel| - 1]))
  }

  function SelectWindow(name: string): string {
    "selectWindow(\"" + name + "\");"
  }

  /** The `imageN=name` arguments of the concatenation, numbered consecutively from `start`. */
  function ImageList(sel: seq<string>, start: nat): string {
    if sel == [] then ""
    else ImageList(sel[..|sel| - 1], start) + ImageArg(start + |sel| - 1, sel[|sel| - 1])
  }

  /** ` imageN=name` */
  function ImageArg(n: nat, name: string): string {
    " image" + NatToString(n) + "=" + name
  }

  lemma SelectionStep(names: seq<string>, k: nat, ref: string)
    requires k < |names|
    ensures Selection(names[..k + 1], ref)
         == Selection(names[..k], ref) + (if Selected(names[k], ref) then [names[k]] else [])
  {
    assert names[..k + 1][..k] == names[..k];
  }

  lemma ListsStep(sel: seq<string>, name: string)
    ensures SelectCommands(sel + [name]) == SelectCommands(sel) + ("\n" + SelectWindow(name))
    ensures ImageList(sel + [name], 1) == ImageList(sel, 1) + ImageArg(1 + |sel|, name)
  {
    assert (sel + [name])[..|sel|] == sel;
  }

  /**
   * `order_windows_for_selection_macro(shortnames, ref)`: the selection
   * commands and the numbered image list of the selected windows, in
   * input order and numbered from 1.
   */
  method OrderWindowsForSelectionMacro(shortnames: seq<string>, ref: string)
    returns (windowOrder: string, concatList: string)
    ensures windowOrder == Slashed(SelectCommands(Selection(shortnames, ref)))
    ensures concatList == Slashed(ImageList(Selection(shortnames, ref), 1))
  {
    var imgNum := 1;
    windowOrder, concatList := "", "";
    assert Slashed("") == "";
    for window := 0 to |shortnames|
      invariant imgNum == 1 + |Selection(shortnames[..window], ref)|
      invariant windowOrder == Slashed(SelectCommands(Selection(shortnames[..window], ref)))
      invariant concatList == Slashed(ImageList(Selection(shortnames[..window], ref), 1))
    {
      ghost var sel := Selection(shortnames[..window], ref);
      SelectionStep(shortnames, window, ref);
      var name := shortnames[window];
      var img := ImageArg(imgNum, name);
      if Selected(name, ref) {
        var newSelect := SelectWindow(name);
        ListsStep(sel, name);
        JoinAccumulate(concatList, ImageList(sel, 1), img, "");
        concatList := Join([concatList, img], "");
        assert "" + img == img;
        JoinAccumulate(windowOrder, SelectCommands(sel), newSelect, "\n");
        windowOrder := Join([windowOrder, newSelect], "\n");
        assert windowOrder == Slashed(SelectCommands(sel + [name]));
        imgNum := imgNum + 1;
      } else {
        assert sel + [] == sel;
      }
    }
    assert shortnames[..|shortnames|] == shortnames;
  }
}
