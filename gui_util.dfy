/**
 * The pure helpers of GUI/util.py that the alignment and reconstruction
 * tabs share: ordering the three focus groups of an .fls file, joining
 * path pieces with forward slashes, recognising positive integers, the
 * short name of a file and the corner points of the square
 * reconstruction mask.
 */
module GuiUtil {
  import opened Results
  import opened PyText
  import PySeq

  // ---------------------------------------------------------------
  // flatten_order_list
  // ---------------------------------------------------------------

  /**
   * `flatten_order_list(my_list)`: the first of three lists reversed,
   * then the second and the third.  Fewer than three lists raise
   * IndexError; lists after the third are ignored.
   */
  function FlattenOrderList<T>(lists: seq<seq<T>>): (r: Result<seq<T>>)
    ensures r.Ok? <==> |lists| >= 3
    ensures r.Ok? ==> |r.value| == |lists[0]| + |lists[1]| + |lists[2]|
    ensures r.Ok? ==> forall i :: 0 <= i < |lists[0]| ==> r.value[i] == lists[0][|lists[0]| - 1 - i]
    ensures r.Ok? ==> r.value[|lists[0]|..] == lists[1] + lists[2]
  {
    if |lists| < 3 then Err(IndexError)
    else
      var flat := PySeq.Reverse(lists[0]) + lists[1] + lists[2];
      assert flat[|lists[0]|..] == lists[1] + lists[2];
      Ok(flat)
  }

  /** Flattening undoes a reversal of the first list: groups stored low-to-high come back in order. */
  lemma FlattenUndoesReversal<T>(a: seq<T>, b: seq<T>, c: seq<T>)
    ensures FlattenOrderList([PySeq.Reverse(a), b, c]) == Ok(a + b + c)
  {
    PySeq.ReverseReverse(a);
  }

  // ---------------------------------------------------------------
  // join
  // ---------------------------------------------------------------

  /** No character of `s` is a backslash. */
  predicate NoBackslash(s: string) {
    forall i :: 0 <= i < |s| ==> s[i] != '\\'
  }

  /** `s.replace('\\', '/')`: every backslash becomes a forward slash. */
  function Slashed(s: string): (r: string)
    ensures |r| == |s|
    ensures forall i :: 0 <= i < |s| ==> r[i] == if s[i] == '\\' then '/' else s[i]
    ensures NoBackslash(r)
  {
    ReplaceCharByChar(s, '\\', '/');
    Replace(s, "\\", "/")
  }

  /** Replacing again after appending is replacing once over the whole string. */
  lemma SlashedAppend(a: string, b: string)
    ensures Slashed(Slashed(a) + b) == Slashed(a + b)
  {
    var l, r := Slashed(Slashed(a) + b), Slashed(a + b);
    forall i | 0 <= i < |a + b| ensures l[i] == r[i] {
      if i < |a| {
        assert (Slashed(a) + b)[i] == Slashed(a)[i];
      } else {
        assert (Slashed(a) + b)[i] == b[i - |a|] == (a + b)[i];
      }
    }
  }

  /**
   * `join(strings, sep)`: the pieces joined with `sep`, and then every
   * backslash in the result replaced by a forward slash.
   */
  function Join(strings: seq<string>, sep: string): (r: string)
    ensures NoBackslash(r)
    ensures |r| == |JoinWith(strings, sep)|
    ensures forall i :: 0 <= i < |r| ==>
      r[i] == if JoinWith(strings, sep)[i] == '\\' then '/' else JoinWith(strings, sep)[i]
  {
    Slashed(JoinWith(strings, sep))
  }

  /** Joining two pieces puts the separator between them. */
  lemma JoinPair(a: string, b: string, sep: string)
    ensures Join([a, b], sep) == Slashed(a + (sep + b))
  {
    assert JoinWith([a, b], sep) == a + sep + JoinWith([b], sep);
    ConcatAssoc(a, sep, b);
  }

  /** Joining a piece onto an accumulator that already holds `Slashed(done)`. */
  lemma JoinAccumulate(acc: string, done: string, piece: string, sep: string)
    requires acc == Slashed(done)
    ensures Join([acc, piece], sep) == Slashed(done + (sep + piece))
  {
    JoinPair(acc, piece, sep);
    SlashedAppend(done, sep + piece);
  }

  /** Joining three pieces without a separator concatenates them. */
  lemma JoinTriple(a: string, b: string, c: string)
    ensures Join([a, b, c], "") == Slashed(a + (b + c))
  {
    assert JoinWith([c], "") == c;
    assert JoinWith([b, c], "") == b + "" + JoinWith([c], "");
    assert JoinWith([a, b, c], "") == a + "" + JoinWith([b, c], "");
    ConcatAssoc(a, [], b + c);
  }

  lemma ConcatAssoc<T>(x: seq<T>, y: seq<T>, z: seq<T>)
    ensures x + y + z == x + (y + z)
  {
  }

  /** Pieces and separator without backslashes are joined unchanged. */
  lemma JoinWithoutBackslash(a: string, b: string, sep: string)
    requires NoBackslash(a) && NoBackslash(b) && NoBackslash(sep)
    ensures Join([a, b], sep) == a + (sep + b)
  {
    JoinPair(a, b, sep);
    var s := a + (sep + b);
    forall i | 0 <= i < |s| ensures s[i] != '\\' {
      if i < |a| {
        assert s[i] == a[i];
      } else if i < |a| + |sep| {
        assert s[i] == sep[i - |a|];
      } else {
        assert s[i] == b[i - |a| - |sep|];
      }
    }
  }

  // ---------------------------------------------------------------
  // represents_int_above_0
  // ---------------------------------------------------------------

  /**
   * `represents_int_above_0(s)`: `int(s)` succeeds and is positive. Only
   * text with a digit and without a leading minus sign is accepted.
   */
  function RepresentsIntAboveZero(s: string): (r: bool)
    ensures r ==> Strip(s) != [] && Strip(s)[0] != '-'
    ensures r ==> exists i :: 0 <= i < |Strip(s)| && IsDigit(Strip(s)[i])
  {
    var t := Strip(s);
    match ParseInt(s)
    case Some(v) =>
      var k := if t[0] == '-' || t[0] == '+' then 1 else 0;
      assert k == 1 ==> t[k] == t[1..][0];
      assert IsDigit(t[k]);
      v > 0
    case None => false
  }

  /** The decimal form of a natural number is accepted exactly when the number is positive. */
  lemma RepresentsNatString(n: nat)
    ensures RepresentsIntAboveZero(NatToString(n)) <==> n > 0
  {
    ParseIntOfNatToString(n);
  }

  // ---------------------------------------------------------------
  // FileObject.shorten_name
  // ---------------------------------------------------------------

  /** `path[path.rfind('/') + 1:]`: the part after the last '/', or all of `path`. */
  function ShortName(path: string): (r: string)
    ensures '/' !in r
    ensures |r| <= |path| && r == path[|path| - |r|..]
    ensures '/' !in path ==> r == path
    ensures '/' in path ==> |r| < |path| && path[|path| - |r| - 1] == '/'
  {
    var k := RFind(path, '/');
    assert forall i :: k + 1 <= i < |path| ==> path[i] != '/';
    assert '/' in path ==> k >= 0;
    path[k + 1..]
  }

  /** A file known by its path and by the short name shown in the GUI. */
  class FileObject {
    var path: string
    var shortname: string

    /** `FileObject(path)`: the short name is set from the path at once. */
    constructor (path: string)
      ensures this.path == path && shortname == ShortName(path)
    {
      this.path := path;
      shortname := "";
      new;
      ShortenName();
    }

    /** `shorten_name()`: recomputes the short name from the current path. */
    method ShortenName()
      modifies this`shortname
      ensures shortname == ShortName(path)
    {
      var index := RFind(path, '/') + 1;
      shortname := path[index..];
    }
  }

  // ---------------------------------------------------------------
  // draw_square_mask
  // ---------------------------------------------------------------

  /** Python's `round(x)` to an integer: to the nearest integer, ties to the even one. */
  function RoundHalfEven(x: real): (r: int)
    ensures x - 0.5 <= r as real <= x + 0.5
    ensures (r as real - x == 0.5 || x - r as real == 0.5) ==> r % 2 == 0
  {
    var f := x.Floor;
    var d := x - f as real;
    if d < 0.5 then f
    else if d > 0.5 then f + 1
    else if f % 2 == 0 then f
    else f + 1
  }

  /** An odd side is decremented: the side actually used is even. */
  function EvenSide(n: int): (r: int)
    ensures r % 2 == 0
    ensures r == n || r == n - 1
    ensures n % 2 == 0 ==> r == n
  {
    if n % 2 != 0 then n - 1 else n
  }

  /** `round(graph_x * mask_percent)` for a size given in percent of the graph width. */
  function MaskSide(graphX: int, sizePercent: real): (side: int)
    ensures var exact := graphX as real * (sizePercent / 100.0);
      exact - 0.5 <= side as real <= exact + 0.5
  {
    RoundHalfEven(graphX as real * (sizePercent / 100.0))
  }

  datatype MaskBox = MaskBox(left: int, right: int, top: int, bottom: int)

  /**
   * The edges of the square mask of side `side` (already rounded) centred
   * on (cx, cy) in a graph of size (graphX, graphY).  A centre within half
   * a side of an edge pins the box to that edge; a centre within half a
   * side of both edges makes it span the whole graph.
   */
  function SquareMaskBox(side: int, graphX: int, graphY: int, cx: int, cy: int): (b: MaskBox)
    ensures var w := EvenSide(side);
      var leftBound, rightBound := cx <= w / 2, cx >= graphX - w / 2;
      (!leftBound && !rightBound ==>
         b.right - b.left == w && b.left + b.right == 2 * cx && 0 < b.left && b.right < graphX)
      && (leftBound && rightBound ==> b.left == 0 && b.right == graphX)
      && (rightBound && !leftBound ==> b.left == graphX - w && b.right == graphX)
      && (leftBound && !rightBound ==> b.left == 0 && b.right == w)
    ensures var h := EvenSide(side);
      var topBound, bottomBound := graphY - cy <= h / 2, graphY - cy >= graphY - h / 2;
      (!topBound && !bottomBound ==>
         b.bottom - b.top == h && b.top + b.bottom == 2 * cy && 0 < b.top && b.bottom < graphY)
      && (topBound && bottomBound ==> b.top == 0 && b.bottom == graphY)
      && (bottomBound && !topBound ==> b.top == 0 && b.bottom == h)
      && (topBound && !bottomBound ==> b.top == graphY - h && b.bottom == graphY)
  {
    var width, height := EvenSide(side), EvenSide(side);
    var leftBound, rightBound := cx <= width / 2, cx >= graphX - width / 2;
    var topBound, bottomBound := graphY - cy <= height / 2, graphY - cy >= graphY - height / 2;
    var (xLeft, xRight) :=
      if !leftBound && !rightBound then (cx - width / 2, cx + width / 2)
      else if leftBound && rightBound then (0, graphX)
      else if rightBound then (graphX - width, graphX)
      else (0, width);
    var (yTop, yBottom) :=
      if !topBound && !bottomBound then (cy - height / 2, cy + height / 2)
      else if topBound && bottomBound then (0, graphY)
      else if bottomBound then (0, height)
      else (graphY - height, graphY);
    MaskBox(xLeft, xRight, yTop, yBottom)
  }

  /** When neither coordinate is pinned to an edge, the mask is a square of even side. */
  lemma FreeMaskIsSquare(side: int, graphX: int, graphY: int, cx: int, cy: int)
    requires var w := EvenSide(side);
      w / 2 < cx < graphX - w / 2 && w / 2 < graphY - cy < graphY - w / 2
    ensures var b := SquareMaskBox(side, graphX, graphY, cx, cy);
      b.right - b.left == b.bottom - b.top == EvenSide(side)
      && (b.right - b.left) % 2 == 0
  {
  }

  /** The corner points in the order the mask polygon is drawn. */
  function Corners(b: MaskBox): (pts: seq<(int, int)>)
    ensures |pts| == 4
    ensures pts[0].0 == pts[1].0 == b.left && pts[2].0 == pts[3].0 == b.right
    ensures pts[0].1 == pts[3].1 == b.top && pts[1].1 == pts[2].1 == b.bottom
  {
    [(b.left, b.top), (b.left, b.bottom), (b.right, b.bottom), (b.right, b.top)]
  }

  /** The part of the window state `draw_square_mask` reads and writes. */
  class MaskWindow {
    /** `rec_mask[0]`: the mask size as a percentage of the graph width. */
    var recMaskSize: real
    /** `rec_mask_center` */
    var recMaskCenter: (int, int)
    /** `rec_mask_coords` */
    var recMaskCoords: seq<(int, int)>

    constructor (size: real, center: (int, int))
      ensures recMaskSize == size && recMaskCenter == center && recMaskCoords == []
    {
      recMaskSize := size;
      recMaskCenter := center;
      recMaskCoords := [];
    }

    /**
     * `draw_square_mask(winfo, graph)` for a graph of size (graphX,
     * graphY): both sides come from the graph width times the size
     * percentage, rounded and made even; only the corner list changes.
     */
    method DrawSquareMask(graphX: int, graphY: int)
      modifies this`recMaskCoords
      ensures recMaskCoords == Corners(SquareMaskBox(MaskSide(graphX, recMaskSize),
                                                     graphX, graphY, recMaskCenter.0, recMaskCenter.1))
    {
      var centerX, centerY := recMaskCenter.0, recMaskCenter.1;
      var side := MaskSide(graphX, recMaskSize);
      recMaskCoords := [];
      var box := SquareMaskBox(side, graphX, graphY, centerX, centerY);
      recMaskCoords := [(box.left, box.top), (box.left, box.bottom), (box.right, box.bottom), (box.right, box.top)];
      assert recMaskCoords == Corners(box);
    }
  }
}
