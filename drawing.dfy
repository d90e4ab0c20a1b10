/**
 * The image as the list of draw calls made on it, and the loop of
 * `draw_boxes` that turns the lines of a label file into those calls.
 */
module Drawing {

  import opened Wrappers
  import opened LabelBox

  /** One 8-bit colour channel, as `random.randint(0, 255)` draws it. */
  type Channel = x: int | 0 <= x <= 255

  /** A colour triple in the order OpenCV reads it. */
  datatype Color = Color(blue: Channel, green: Channel, red: Channel)

  datatype Point = Point(x: int, y: int)

  datatype Font = HersheySimplex

  /** A call of `cv2.rectangle` or `cv2.putText`, with its arguments. */
  datatype DrawCommand =
    | Rectangle(corner1: Point, corner2: Point, color: Color, thickness: int)
    | Text(text: string, origin: Point, font: Font, scale: real, color: Color, thickness: int)

  const BoxThickness := 2
  /** The class name is written this many pixels above the top-left corner. */
  const TextRaise := 10
  const TextScale := 0.5
  const TextThickness := 2

  /** A decoded image: its size and, in order, every draw call made on it. */
  class Image {
    const width: nat
    const height: nat
    var drawn: seq<DrawCommand>

    constructor (width: nat, height: nat)
      ensures this.width == width && this.height == height && drawn == []
    {
      this.width := width;
      this.height := height;
      drawn := [];
    }

    /** `cv2.rectangle(img, p1, p2, color, thickness)`. */
    method DrawRectangle(p1: Point, p2: Point, color: Color, thickness: int)
      modifies this
      ensures drawn == old(drawn) + [Rectangle(p1, p2, color, thickness)]
    {
      drawn := drawn + [Rectangle(p1, p2, color, thickness)];
    }

    /** `cv2.putText(img, text, origin, font, scale, color, thickness)`. */
    method PutText(text: string, origin: Point, font: Font, scale: real, color: Color, thickness: int)
      modifies this
      ensures drawn == old(drawn) + [Text(text, origin, font, scale, color, thickness)]
    {
      drawn := drawn + [Text(text, origin, font, scale, color, thickness)];
    }
  }

  /** Every box names a class of the manifest. */
  predicate ClassesKnown(boxes: seq<Box>, numClasses: nat)
  {
    forall k :: 0 <= k < |boxes| ==> boxes[k].classId < numClasses
  }

  /** The boxes of the accepted lines, in file order. */
  function AcceptedBoxes(lines: seq<string>, numClasses: nat, width: nat, height: nat,
                         parse: string -> Option<real>): (r: seq<Box>)
    ensures |r| <= |lines|
    ensures ClassesKnown(r, numClasses)
  {
    if lines == [] then []
    else LineBoxes(lines[0], numClasses, width, height, parse) + AcceptedBoxes(lines[1..], numClasses, width, height, parse)
  }

  /** What one line contributes: its box, or nothing when it is skipped. */
  function LineBoxes(line: string, numClasses: nat, width: nat, height: nat,
                     parse: string -> Option<real>): (r: seq<Box>)
    ensures ClassesKnown(r, numClasses)
  {
    match LineToBox(line, numClasses, width, height, parse)
    case Some(b) => [b]
    case None => []
  }

  /** The two calls one box makes: its rectangle, then its class name above the top-left corner. */
  function BoxCommands(b: Box, classes: seq<string>, color: Color): seq<DrawCommand>
    requires b.classId < |classes|
  {
    var c := b.corners;
    [Rectangle(Point(c.x1, c.y1), Point(c.x2, c.y2), color, BoxThickness),
     Text(classes[b.classId], Point(c.x1, c.y1 - TextRaise), HersheySimplex, TextScale, color, TextThickness)]
  }

  /** The calls for a run of boxes; the `k`-th box takes colour `draws(first + k)`. */
  function Commands(boxes: seq<Box>, classes: seq<string>, draws: nat -> Color, first: nat): (r: seq<DrawCommand>)
    requires ClassesKnown(boxes, |classes|)
    ensures |r| == 2 * |boxes|
  {
    if boxes == [] then []
    else BoxCommands(boxes[0], classes, draws(first)) + Commands(boxes[1..], classes, draws, first + 1)
  }

  /** Everything the loop draws for a label file. */
  function Annotation(lines: seq<string>, classes: seq<string>, width: nat, height: nat,
                      parse: string -> Option<real>, draws: nat -> Color): seq<DrawCommand>
  {
    Commands(AcceptedBoxes(lines, |classes|, width, height, parse), classes, draws, 0)
  }

  /**
   * The loop over the label lines. A line that does not parse, or whose class
   * id is out of range, is skipped; every other line draws its rectangle and
   * its class name, and the image keeps what was drawn before.
   */
  method DrawLabels(img: Image, labels: seq<string>, classes: seq<string>,
                    parse: string -> Option<real>, draws: nat -> Color)
    modifies img
    ensures img.drawn == old(img.drawn) + Annotation(labels, classes, img.width, img.height, parse, draws)
  {
    var numClasses, width, height := |classes|, img.width, img.height;
    var count := 0;
    for i := 0 to |labels|
      invariant count == |AcceptedBoxes(labels[..i], numClasses, width, height, parse)|
      invariant img.drawn == old(img.drawn)
        + Commands(AcceptedBoxes(labels[..i], numClasses, width, height, parse), classes, draws, 0)
    {
      var box := ConvertLine(labels[i], numClasses, width, height, parse);
      LoopStep(labels, i, classes, width, height, parse, draws);
      if box.Some? {
        ghost var drawnSoFar := Commands(AcceptedBoxes(labels[..i], numClasses, width, height, parse), classes, draws, 0);
        DrawBox(img, box.value, classes, draws(count));
        AppendAssoc(old(img.drawn), drawnSoFar, BoxCommands(box.value, classes, draws(count)));
        count := count + 1;
      }
    }
    assert labels[..|labels|] == labels;
  }

  lemma AppendAssoc<T>(a: seq<T>, b: seq<T>, c: seq<T>)
    ensures a + (b + c) == (a + b) + c
  {
  }

  /** The two drawing calls of the loop body: the rectangle, then the class name 10 pixels above its top-left corner. */
  method DrawBox(img: Image, b: Box, classes: seq<string>, color: Color)
    requires b.classId < |classes|
    modifies img
    ensures img.drawn == old(img.drawn) + BoxCommands(b, classes, color)
  {
    var c := b.corners;
    img.DrawRectangle(Point(c.x1, c.y1), Point(c.x2, c.y2), color, BoxThickness);
    var className := classes[b.classId];
    img.PutText(className, Point(c.x1, c.y1 - TextRaise), HersheySimplex, TextScale, color, TextThickness);
  }

  /** Lines are handled one by one: the boxes of a concatenation are the two runs of boxes, in order. */
  lemma {:induction false} AcceptedAppend(a: seq<string>, b: seq<string>, numClasses: nat, width: nat, height: nat,
                                          parse: string -> Option<real>)
    ensures AcceptedBoxes(a + b, numClasses, width, height, parse)
         == AcceptedBoxes(a, numClasses, width, height, parse) + AcceptedBoxes(b, numClasses, width, height, parse)
    decreases |a|
  {
    if a == [] {
      assert a + b == b;
    } else {
      var head := LineBoxes(a[0], numClasses, width, height, parse);
      assert (a + b)[0] == a[0];
      assert (a + b)[1..] == a[1..] + b;
      AcceptedAppend(a[1..], b, numClasses, width, height, parse);
      var rest := AcceptedBoxes(a[1..], numClasses, width, height, parse);
      var tail := AcceptedBoxes(b, numClasses, width, height, parse);
      assert AcceptedBoxes(a + b, numClasses, width, height, parse) == head + (rest + tail);
      assert AcceptedBoxes(a, numClasses, width, height, parse) == head + rest;
      AppendAssoc(head, rest, tail);
    }
  }

  predicate AllInBounds(boxes: seq<Box>, width: nat, height: nat)
  {
    forall k :: 0 <= k < |boxes| ==> InBounds(boxes[k].corners, width, height)
  }

  /** The accepted boxes are the clamped ones: top left not left of or above the origin, bottom right inside the image. */
  lemma {:induction false} AcceptedBoxesInBounds(lines: seq<string>, numClasses: nat, width: nat, height: nat,
                                                 parse: string -> Option<real>)
    ensures AllInBounds(AcceptedBoxes(lines, numClasses, width, height, parse), width, height)
    decreases |lines|
  {
    if lines != [] {
      assert lines == [lines[0]] + lines[1..];
      AcceptedAppend([lines[0]], lines[1..], numClasses, width, height, parse);
      AcceptedOne(lines[0], numClasses, width, height, parse);
      AcceptedBoxesInBounds(lines[1..], numClasses, width, height, parse);
      var head := AcceptedBoxes([lines[0]], numClasses, width, height, parse);
      var tail := AcceptedBoxes(lines[1..], numClasses, width, height, parse);
      assert AcceptedBoxes(lines, numClasses, width, height, parse) == head + tail;
    }
  }

  /** The boxes after one more line: the line's box is appended when it is accepted. */
  lemma AcceptedStep(prefix: seq<string>, line: string, numClasses: nat, width: nat, height: nat,
                     parse: string -> Option<real>)
    ensures AcceptedBoxes(prefix + [line], numClasses, width, height, parse)
         == AcceptedBoxes(prefix, numClasses, width, height, parse)
            + match LineToBox(line, numClasses, width, height, parse)
              case Some(b) => [b]
              case None => []
  {
    AcceptedAppend(prefix, [line], numClasses, width, height, parse);
    AcceptedOne(line, numClasses, width, height, parse);
  }

  /** The same step, for the first `i + 1` lines of a file. */
  lemma AcceptedNext(lines: seq<string>, i: nat, numClasses: nat, width: nat, height: nat,
                     parse: string -> Option<real>)
    requires i < |lines|
    ensures AcceptedBoxes(lines[..i + 1], numClasses, width, height, parse)
         == AcceptedBoxes(lines[..i], numClasses, width, height, parse)
            + match LineToBox(lines[i], numClasses, width, height, parse)
              case Some(b) => [b]
              case None => []
  {
    assert lines[..i + 1] == lines[..i] + [lines[i]];
    AcceptedStep(lines[..i], lines[i], numClasses, width, height, parse);
  }

  /** One line yields its box when it is accepted and nothing otherwise. */
  lemma AcceptedOne(line: string, numClasses: nat, width: nat, height: nat, parse: string -> Option<real>)
    ensures AcceptedBoxes([line], numClasses, width, height, parse)
         == match LineToBox(line, numClasses, width, height, parse)
            case Some(b) => [b]
            case None => []
  {
    assert [line][1..] == [];
  }

  /** A skipped line draws nothing and does not stop the lines after it. */
  lemma SkippedLineDrawsNothing(before: seq<string>, line: string, after: seq<string>, classes: seq<string>,
                                width: nat, height: nat, parse: string -> Option<real>, draws: nat -> Color)
    requires LineToBox(line, |classes|, width, height, parse).None?
    ensures Annotation(before + [line] + after, classes, width, height, parse, draws)
         == Annotation(before + after, classes, width, height, parse, draws)
  {
    var n := |classes|;
    AcceptedAppend(before + [line], after, n, width, height, parse);
    AcceptedAppend(before, [line], n, width, height, parse);
    AcceptedAppend(before, after, n, width, height, parse);
    AcceptedOne(line, n, width, height, parse);
    assert AcceptedBoxes(before + [line], n, width, height, parse) == AcceptedBoxes(before, n, width, height, parse);
  }

  /** Drawing one more box appends its two calls, in the colour of its position. */
  lemma {:induction false} CommandsAppend(boxes: seq<Box>, b: Box, classes: seq<string>, draws: nat -> Color, first: nat)
    requires ClassesKnown(boxes, |classes|) && b.classId < |classes|
    ensures ClassesKnown(boxes + [b], |classes|)
    ensures Commands(boxes + [b], classes, draws, first)
         == Commands(boxes, classes, draws, first) + BoxCommands(b, classes, draws(first + |boxes|))
    decreases |boxes|
  {
    var all := boxes + [b];
    forall k | 0 <= k < |all|
      ensures all[k].classId < |classes|
    {
      if k < |boxes| {
        assert all[k] == boxes[k];
      }
    }
    if boxes == [] {
      assert all == [b];
      assert all[1..] == [];
    } else {
      assert all[0] == boxes[0];
      assert all[1..] == boxes[1..] + [b];
      CommandsAppend(boxes[1..], b, classes, draws, first + 1);
      var head := BoxCommands(boxes[0], classes, draws(first));
      var rest := Commands(boxes[1..], classes, draws, first + 1);
      var last := BoxCommands(b, classes, draws(first + |boxes|));
      assert Commands(all, classes, draws, first) == head + (rest + last);
      AppendAssoc(head, rest, last);
    }
  }

  /** What one more line adds: nothing when it is skipped, else one box and its two calls in the next colour. */
  lemma LoopStep(lines: seq<string>, i: nat, classes: seq<string>, width: nat, height: nat,
                 parse: string -> Option<real>, draws: nat -> Color)
    requires i < |lines|
    ensures var before := AcceptedBoxes(lines[..i], |classes|, width, height, parse);
      var after := AcceptedBoxes(lines[..i + 1], |classes|, width, height, parse);
      match LineToBox(lines[i], |classes|, width, height, parse)
      case None =>
        |after| == |before| && Commands(after, classes, draws, 0) == Commands(before, classes, draws, 0)
      case Some(b) =>
        && b.classId < |classes|
        && |after| == |before| + 1
        && Commands(after, classes, draws, 0) == Commands(before, classes, draws, 0) + BoxCommands(b, classes, draws(|before|))
  {
    var box := LineToBox(lines[i], |classes|, width, height, parse);
    AcceptedNext(lines, i, |classes|, width, height, parse);
    CommandsStep(AcceptedBoxes(lines[..i], |classes|, width, height, parse),
                 AcceptedBoxes(lines[..i + 1], |classes|, width, height, parse),
                 box, classes, draws);
  }

  /** One pass of the loop: a drawn box adds its two calls in the next colour of the stream, a skipped line none. */
  lemma CommandsStep(before: seq<Box>, after: seq<Box>, box: Option<Box>, classes: seq<string>, draws: nat -> Color)
    requires ClassesKnown(before, |classes|)
    requires box.Some? ==> box.value.classId < |classes|
    requires after == before + match box case Some(b) => [b] case None => []
    ensures ClassesKnown(after, |classes|)
    ensures |after| == |before| + (if box.Some? then 1 else 0)
    ensures Commands(after, classes, draws, 0)
         == Commands(before, classes, draws, 0)
            + match box
              case Some(b) => BoxCommands(b, classes, draws(|before|))
              case None => []
  {
    if box.Some? {
      CommandsAppend(before, box.value, classes, draws, 0);
    } else {
      assert after == before;
    }
  }

  /**
   * The `k`-th box's calls sit at positions `2k` and `2k + 1`: a rectangle with
   * stroke 2 on its corners, then its class name at `(x1, y1 - 10)`, both in colour
   * `draws(first + k)`.
   */
  lemma {:induction false} CommandsAt(boxes: seq<Box>, classes: seq<string>, draws: nat -> Color, first: nat, k: nat)
    requires ClassesKnown(boxes, |classes|) && k < |boxes|
    ensures var r := Commands(boxes, classes, draws, first);
      var c := boxes[k].corners;
      var color := draws(first + k);
      && r[2 * k] == Rectangle(Point(c.x1, c.y1), Point(c.x2, c.y2), color, 2)
      && r[2 * k + 1] == Text(classes[boxes[k].classId], Point(c.x1, c.y1 - 10), HersheySimplex, 0.5, color, 2)
    decreases k
  {
    if k > 0 {
      CommandsAt(boxes[1..], classes, draws, first + 1, k - 1);
    }
  }

  /** Every text the loop writes is one of the manifest's class names. */
  lemma AnnotationTextsAreClassNames(lines: seq<string>, classes: seq<string>, width: nat, height: nat,
                                     parse: string -> Option<real>, draws: nat -> Color, j: nat)
    requires j < |Annotation(lines, classes, width, height, parse, draws)|
    ensures var r := Annotation(lines, classes, width, height, parse, draws);
      (j % 2 == 0 <==> r[j].Rectangle?) && (r[j].Text? ==> r[j].text in classes)
  {
    CommandsShape(AcceptedBoxes(lines, |classes|, width, height, parse), classes, draws, 0, j);
  }

  /** Calls alternate rectangle, text, rectangle, text, and every text is a class name. */
  lemma CommandsShape(boxes: seq<Box>, classes: seq<string>, draws: nat -> Color, first: nat, j: nat)
    requires ClassesKnown(boxes, |classes|) && j < 2 * |boxes|
    ensures var r := Commands(boxes, classes, draws, first);
      (j % 2 == 0 <==> r[j].Rectangle?) && (r[j].Text? ==> r[j].text in classes)
  {
    var k := j / 2;
    CommandsAt(boxes, classes, draws, first, k);
    if j % 2 == 0 {
      assert j == 2 * k;
    } else {
      assert j == 2 * k + 1;
    }
  }

  /** The loop draws one rectangle and one text per accepted line, so twice as many calls as boxes. */
  lemma AnnotationSize(lines: seq<string>, classes: seq<string>, width: nat, height: nat,
                       parse: string -> Option<real>, draws: nat -> Color)
    ensures |Annotation(lines, classes, width, height, parse, draws)|
         == 2 * |AcceptedBoxes(lines, |classes|, width, height, parse)| <= 2 * |lines|
  {
  }
}
