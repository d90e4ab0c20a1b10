/**
 * One label-file line to one pixel box: split on white space, convert the
 * five fields to numbers, check the class id, convert the normalised centre
 * and size to pixel corners and clamp them (the body of the loop in
 * `draw_boxes`).
 */
module LabelBox {

  import opened Wrappers
  import opened Tokenize

  /** `class_id center_x center_y box_width box_height`, every field as the float it parsed to. */
  datatype LabelRecord = LabelRecord(classId: real, centerX: real, centerY: real, boxWidth: real, boxHeight: real)

  /** Pixel corners: `(x1, y1)` top left and `(x2, y2)` bottom right. */
  datatype Corners = Corners(x1: int, y1: int, x2: int, y2: int)

  /** An accepted line: the class it names and its clamped corners. */
  datatype Box = Box(classId: nat, corners: Corners)

  /** Python's `int()` on a float: drops the fraction, rounding toward zero. */
  function TruncToward0(x: real): (r: int)
    ensures TruncatesTo(x, r)
  {
    if x >= 0.0 then x.Floor else -((-x).Floor)
  }

  /** `n` lies between zero and `x`, less than one away from `x`. */
  predicate TruncatesTo(x: real, n: int)
  {
    (0.0 <= x ==> 0 <= n && n as real <= x < n as real + 1.0)
    && (x < 0.0 ==> n <= 0 && n as real - 1.0 < x <= n as real)
  }

  /** `map(float, tokens)`, fully consumed: fails as soon as one token is not a number. */
  function ParseNumbers(tokens: seq<string>, parse: string -> Option<real>): (r: Option<seq<real>>)
    ensures r.Some? <==> forall k :: 0 <= k < |tokens| ==> parse(tokens[k]).Some?
    ensures r.Some? ==> |r.value| == |tokens|
    ensures r.Some? ==> forall k :: 0 <= k < |tokens| ==> parse(tokens[k]) == Some(r.value[k])
  {
    if tokens == [] then Some([])
    else match (parse(tokens[0]), ParseNumbers(tokens[1..], parse))
      case (Some(x), Some(xs)) => Some([x] + xs)
      case _ => None
  }

  /**
   * Unpacks `map(float, line.strip().split())` into five names. Any other
   * token count, or a token `parse` rejects, is the `ValueError` that makes
   * the loop skip the line.
   */
  function ParseLine(line: string, parse: string -> Option<real>): (r: Option<LabelRecord>)
    ensures var t := Split(line);
      r.Some? <==> |t| == 5 && forall k :: 0 <= k < 5 ==> parse(t[k]).Some?
    ensures var t := Split(line);
      r.Some? ==> r.value == LabelRecord(parse(t[0]).value, parse(t[1]).value, parse(t[2]).value,
                                         parse(t[3]).value, parse(t[4]).value)
  {
    SplitIgnoresStrip(line);
    var tokens := Split(Strip(line));
    if |tokens| != 5 then None
    else match ParseNumbers(tokens, parse)
      case None => None
      case Some(v) => Some(LabelRecord(v[0], v[1], v[2], v[3], v[4]))
  }

  /**
   * The class check `0 <= int(class_id) < num_classes`. Since `int()`
   * truncates toward zero it holds exactly when `-1 < class_id < n`: so
   * `-0.5` is class 0 and `1.7` is class 1.
   */
  predicate ValidClass(rec: LabelRecord, numClasses: nat)
    ensures ValidClass(rec, numClasses) <==> numClasses > 0 && -1.0 < rec.classId < numClasses as real
  {
    0 <= TruncToward0(rec.classId) < numClasses
  }

  /** `int((center - size / 2) * extent)`: the left or top edge in pixels. */
  function LowEdge(center: real, size: real, extent: nat): int
  {
    TruncToward0((center - size / 2.0) * extent as real)
  }

  /** `int((center + size / 2) * extent)`: the right or bottom edge in pixels. */
  function HighEdge(center: real, size: real, extent: nat): int
  {
    TruncToward0((center + size / 2.0) * extent as real)
  }

  /** Corners before clamping: the low and high edges of each axis, x against the width and y against the height. */
  function RawCorners(rec: LabelRecord, width: nat, height: nat): Corners
  {
    Corners(LowEdge(rec.centerX, rec.boxWidth, width), LowEdge(rec.centerY, rec.boxHeight, height),
            HighEdge(rec.centerX, rec.boxWidth, width), HighEdge(rec.centerY, rec.boxHeight, height))
  }

  /** Where the clamp leaves the corners: top left bounded below, bottom right bounded above. */
  predicate InBounds(c: Corners, width: nat, height: nat)
  {
    0 <= c.x1 && 0 <= c.y1 && c.x2 <= width && c.y2 <= height
  }

  /** `max(0, x1)`, `max(0, y1)`, `min(width, x2)`, `min(height, y2)`. */
  function Clamp(c: Corners, width: nat, height: nat): (r: Corners)
    ensures InBounds(r, width, height)
    ensures r.x1 == (if c.x1 < 0 then 0 else c.x1)
    ensures r.y1 == (if c.y1 < 0 then 0 else c.y1)
    ensures r.x2 == (if c.x2 > width then width else c.x2)
    ensures r.y2 == (if c.y2 > height then height else c.y2)
  {
    Corners(if 0 >= c.x1 then 0 else c.x1, if 0 >= c.y1 then 0 else c.y1,
            if width <= c.x2 then width else c.x2, if height <= c.y2 then height else c.y2)
  }

  /** The whole per-line pipeline; `None` is a skipped line. */
  function LineToBox(line: string, numClasses: nat, width: nat, height: nat,
                     parse: string -> Option<real>): (r: Option<Box>)
    ensures r.Some? <==> ParseLine(line, parse).Some? && ValidClass(ParseLine(line, parse).value, numClasses)
    ensures r.Some? ==> r.value.classId < numClasses
    ensures r.Some? ==> r.value.classId == TruncToward0(ParseLine(line, parse).value.classId)
    ensures r.Some? ==> InBounds(r.value.corners, width, height)
    ensures r.Some? ==> r.value.corners == Clamp(RawCorners(ParseLine(line, parse).value, width, height), width, height)
  {
    match ParseLine(line, parse)
    case None => None
    case Some(rec) =>
      if ValidClass(rec, numClasses)
      then Some(Box(TruncToward0(rec.classId), Clamp(RawCorners(rec, width, height), width, height)))
      else None
  }

  /**
   * The body of the label loop up to the drawing calls, step by step: parse
   * the line, check the class id, convert the corners to pixels and clamp
   * them. `None` is a line the loop skips.
   */
  method ConvertLine(line: string, numClasses: nat, width: nat, height: nat, parse: string -> Option<real>)
    returns (box: Option<Box>)
    ensures box == LineToBox(line, numClasses, width, height, parse)
  {
    var parsed := ParseLine(line, parse);
    if parsed.None? {
      Rejected(line, numClasses, width, height, parse);
      return None;
    }
    var rec := parsed.value;
    var classId := TruncToward0(rec.classId);
    if !(0 <= classId < numClasses) {
      Rejected(line, numClasses, width, height, parse);
      return None;
    }
    var x1 := LowEdge(rec.centerX, rec.boxWidth, width);
    var y1 := LowEdge(rec.centerY, rec.boxHeight, height);
    var x2 := HighEdge(rec.centerX, rec.boxWidth, width);
    var y2 := HighEdge(rec.centerY, rec.boxHeight, height);
    x1 := if 0 >= x1 then 0 else x1;
    y1 := if 0 >= y1 then 0 else y1;
    x2 := if width <= x2 then width else x2;
    y2 := if height <= y2 then height else y2;
    var b := Box(classId, Corners(x1, y1, x2, y2));
    assert b.corners == Clamp(RawCorners(rec, width, height), width, height);
    AcceptedRecord(line, rec, numClasses, width, height, parse);
    box := Some(b);
  }

  /** A line that does not parse, or names an unknown class, is skipped. */
  lemma Rejected(line: string, numClasses: nat, width: nat, height: nat, parse: string -> Option<real>)
    requires ParseLine(line, parse).None? || !ValidClass(ParseLine(line, parse).value, numClasses)
    ensures LineToBox(line, numClasses, width, height, parse).None?
  {
  }

  /** A line that parses to `rec` with a known class is accepted as the clamped box of `rec`. */
  lemma AcceptedRecord(line: string, rec: LabelRecord, numClasses: nat, width: nat, height: nat,
                       parse: string -> Option<real>)
    requires ParseLine(line, parse) == Some(rec) && ValidClass(rec, numClasses)
    ensures LineToBox(line, numClasses, width, height, parse)
         == Some(Box(TruncToward0(rec.classId), Clamp(RawCorners(rec, width, height), width, height)))
  {
  }

  lemma TruncMonotone(x: real, y: real)
    requires x <= y
    ensures TruncToward0(x) <= TruncToward0(y)
  {
  }

  lemma TruncOfInt(n: int)
    ensures TruncToward0(n as real) == n
  {
  }

  lemma ScaleMonotone(a: real, b: real, e: real)
    requires a <= b && 0.0 <= e
    ensures a * e <= b * e
  {
  }

  lemma ScaledTrunc(a: real, b: real, e: real)
    requires a <= b && 0.0 <= e
    ensures TruncToward0(a * e) <= TruncToward0(b * e)
  {
    ScaleMonotone(a, b, e);
    TruncMonotone(a * e, b * e);
  }

  lemma ScaledAtMost(a: real, extent: nat)
    requires a <= 1.0
    ensures TruncToward0(a * extent as real) <= extent
  {
    var e := extent as real;
    assert a * e <= e;
    TruncMonotone(a * e, e);
    TruncOfInt(extent);
  }

  lemma ScaledAtLeast(b: real, extent: nat)
    requires 0.0 <= b
    ensures 0 <= TruncToward0(b * extent as real)
  {
    assert 0.0 <= b * extent as real;
  }

  lemma EdgesOrdered(center: real, size: real, extent: nat)
    requires 0.0 <= size
    ensures LowEdge(center, size, extent) <= HighEdge(center, size, extent)
  {
    assert center - size / 2.0 <= center + size / 2.0;
    ScaledTrunc(center - size / 2.0, center + size / 2.0, extent as real);
  }

  lemma LowEdgeAtMost(center: real, size: real, extent: nat)
    requires center <= 1.0 && 0.0 <= size
    ensures LowEdge(center, size, extent) <= extent
  {
    ScaledAtMost(center - size / 2.0, extent);
  }

  lemma HighEdgeAtLeast(center: real, size: real, extent: nat)
    requires 0.0 <= center && 0.0 <= size
    ensures 0 <= HighEdge(center, size, extent)
  {
    ScaledAtLeast(center + size / 2.0, extent);
  }

  lemma OrderedAxis(center: real, size: real, extent: nat)
    requires 0.0 <= center <= 1.0 && 0.0 <= size
    ensures LowEdge(center, size, extent) <= HighEdge(center, size, extent)
    ensures LowEdge(center, size, extent) <= extent
    ensures 0 <= HighEdge(center, size, extent)
  {
    EdgesOrdered(center, size, extent);
    LowEdgeAtMost(center, size, extent);
    HighEdgeAtLeast(center, size, extent);
  }

  /**
   * For a normalised line (centre in `[0, 1]`, size not negative) the clamped
   * box is also ordered: `0 <= x1 <= x2 <= width` and `0 <= y1 <= y2 <= height`.
   */
  lemma NormalisedBoxIsOrdered(rec: LabelRecord, width: nat, height: nat)
    requires 0.0 <= rec.centerX <= 1.0 && 0.0 <= rec.centerY <= 1.0
    requires 0.0 <= rec.boxWidth && 0.0 <= rec.boxHeight
    ensures var c := Clamp(RawCorners(rec, width, height), width, height);
      0 <= c.x1 <= c.x2 <= width && 0 <= c.y1 <= c.y2 <= height
  {
    OrderedAxis(rec.centerX, rec.boxWidth, width);
    OrderedAxis(rec.centerY, rec.boxHeight, height);
  }

  lemma EdgesAt(center: real, size: real, lo: int, hi: int)
    requires (center - size / 2.0) * 100.0 == lo as real
    requires (center + size / 2.0) * 100.0 == hi as real
    ensures LowEdge(center, size, 100) == lo && HighEdge(center, size, 100) == hi
  {
    TruncOfInt(lo);
    TruncOfInt(hi);
  }

  /** A negative width yields `x1 > x2`: the clamp does not order the corners. */
  lemma NegativeWidthInvertsBox()
    ensures var c := Clamp(RawCorners(LabelRecord(0.0, 0.5, 0.5, -0.2, 0.2), 100, 100), 100, 100);
      c == Corners(60, 40, 40, 60) && c.x1 > c.x2
  {
    EdgesAt(0.5, -0.2, 60, 40);
    EdgesAt(0.5, 0.2, 40, 60);
  }

  /** A centre beyond the right edge leaves `x1` above `width`: `x1` is clamped from below only. */
  lemma CentreBeyondEdgeExceedsWidth()
    ensures var c := Clamp(RawCorners(LabelRecord(0.0, 2.0, 0.5, 0.2, 0.2), 100, 100), 100, 100);
      c == Corners(190, 40, 100, 60) && c.x1 > 100
  {
    EdgesAt(2.0, 0.2, 190, 210);
    EdgesAt(0.5, 0.2, 40, 60);
  }

  /** A line with fewer or more than five fields is skipped, whatever the fields say. */
  lemma WrongFieldCountSkipped(line: string, numClasses: nat, width: nat, height: nat, parse: string -> Option<real>)
    requires |Split(line)| != 5
    ensures LineToBox(line, numClasses, width, height, parse).None?
  {
  }

  /** A line of five fields one of which is not a number is skipped. */
  lemma NonNumericFieldSkipped(line: string, k: nat, numClasses: nat, width: nat, height: nat,
                               parse: string -> Option<real>)
    requires k < |Split(line)| && parse(Split(line)[k]).None?
    ensures LineToBox(line, numClasses, width, height, parse).None?
  {
  }

  /** A blank line, or one of white space only, has no fields and is skipped. */
  lemma BlankLineSkipped(line: string, numClasses: nat, width: nat, height: nat, parse: string -> Option<real>)
    requires AllSpace(line)
    ensures LineToBox(line, numClasses, width, height, parse).None?
  {
    SplitSkipsLeading(line, []);
    assert line + [] == line;
  }

  /** `int()` drops the fraction toward zero: `1.7` names class 1, `-0.5` class 0, `-1.0` no class. */
  lemma FractionalClassIds(cx: real, cy: real, w: real, h: real)
    ensures TruncToward0(1.7) == 1 && TruncToward0(-0.5) == 0 && TruncToward0(-1.0) == -1
    ensures ValidClass(LabelRecord(1.7, cx, cy, w, h), 2) && ValidClass(LabelRecord(-0.5, cx, cy, w, h), 1)
    ensures !ValidClass(LabelRecord(-1.0, cx, cy, w, h), 1) && !ValidClass(LabelRecord(2.0, cx, cy, w, h), 2)
  {
    TruncOfInt(-1);
    TruncOfInt(2);
  }

  /** Clamping moves only a corner that was out of range: in-range corners are kept, and clamping twice is clamping once. */
  lemma ClampKeepsInRange(c: Corners, width: nat, height: nat)
    ensures InBounds(c, width, height) ==> Clamp(c, width, height) == c
    ensures Clamp(Clamp(c, width, height), width, height) == Clamp(c, width, height)
  {
  }

  lemma ExampleWords()
    ensures Word("0") && Word("0.5") && Word("0.2") && AllSpace("\n")
  {
  }

  lemma ExampleText()
    ensures "0" + " " + "0.5" + " " + "0.5" + " " + "0.2" + " " + "0.2" + "\n" == "0 0.5 0.5 0.2 0.2\n"
  {
  }

  /** A line of five numeric words separated by single spaces parses to those five numbers. */
  lemma ParseFiveFields(a: string, b: string, c: string, d: string, e: string, ending: string,
                        parse: string -> Option<real>)
    requires Word(a) && Word(b) && Word(c) && Word(d) && Word(e) && AllSpace(ending)
    requires parse(a).Some? && parse(b).Some? && parse(c).Some? && parse(d).Some? && parse(e).Some?
    ensures ParseLine(a + " " + b + " " + c + " " + d + " " + e + ending, parse)
         == Some(LabelRecord(parse(a).value, parse(b).value, parse(c).value, parse(d).value, parse(e).value))
  {
    var line := a + " " + b + " " + c + " " + d + " " + e + ending;
    SplitFiveFields(a, b, c, d, e, ending);
    var t := Split(line);
    assert t == [a, b, c, d, e];
    assert forall k :: 0 <= k < 5 ==> parse(t[k]).Some?;
  }

  lemma ExampleParse(parse: string -> Option<real>)
    requires parse("0") == Some(0.0) && parse("0.5") == Some(0.5) && parse("0.2") == Some(0.2)
    ensures ParseLine("0 0.5 0.5 0.2 0.2\n", parse) == Some(LabelRecord(0.0, 0.5, 0.5, 0.2, 0.2))
  {
    ExampleWords();
    ExampleText();
    ParseFiveFields("0", "0.5", "0.5", "0.2", "0.2", "\n", parse);
  }

  /** The worked example: line `0 0.5 0.5 0.2 0.2` on a 100x100 image, one class, is box `(40,40)-(60,60)` of class 0. */
  lemma ExampleLine(parse: string -> Option<real>)
    requires parse("0") == Some(0.0) && parse("0.5") == Some(0.5) && parse("0.2") == Some(0.2)
    ensures LineToBox("0 0.5 0.5 0.2 0.2\n", 1, 100, 100, parse) == Some(Box(0, Corners(40, 40, 60, 60)))
  {
    ExampleParse(parse);
    EdgesAt(0.5, 0.2, 40, 60);
    TruncOfInt(0);
  }
}
