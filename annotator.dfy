/**
 * One call of `draw_boxes`: load the class names, load the image, find its
 * label file, draw every accepted line and save the result. The files it
 * reads are given as values: the class list (absent when the manifest
 * cannot be read), the sizes of the images that decode, and the lines of
 * the label files that exist.
 */
module Annotator {

  import opened Wrappers
  import opened LabelBox
  import opened Drawing
  import opened Paths

  datatype Dimensions = Dimensions(width: nat, height: nat)

  /** What `draw_boxes` reads: the manifest's class names, the decodable images, the label files by path. */
  datatype Files = Files(manifest: Option<seq<string>>, images: map<string, Dimensions>,
                         labelFiles: map<string, seq<string>>)

  /** How a call of `draw_boxes` ends. Only `Saved` writes an image. */
  datatype Outcome =
    | ManifestError
    | ImageLoadError(imagePath: string)
    | LabelFileNotFound(labelPath: string)
    | Saved(outputPath: string, width: nat, height: nat, drawn: seq<DrawCommand>)

  /** The outcome of annotating `imagePath`, in the order the checks are made. */
  function Annotate(imagePath: string, labelsDir: string, outputDir: string, files: Files,
                    parse: string -> Option<real>, draws: nat -> Color): Outcome
  {
    match files.manifest
    case None => ManifestError
    case Some(classes) =>
      if imagePath !in files.images then ImageLoadError(imagePath)
      else
        var size := files.images[imagePath];
        var labelPath := LabelPath(imagePath, labelsDir);
        if labelPath !in files.labelFiles then LabelFileNotFound(labelPath)
        else
          Saved(OutputPath(imagePath, outputDir), size.width, size.height,
                Annotation(files.labelFiles[labelPath], classes, size.width, size.height, parse, draws))
  }

  /**
   * `draw_boxes(image_path, labels_dir, yaml_path, output_dir)`: the image is
   * decoded into a fresh buffer, the label loop draws on it, and the buffer is
   * written under the image's own name in the output directory.
   */
  method DrawBoxes(imagePath: string, labelsDir: string, outputDir: string, files: Files,
                   parse: string -> Option<real>, draws: nat -> Color)
    returns (outcome: Outcome)
    ensures outcome == Annotate(imagePath, labelsDir, outputDir, files, parse, draws)
  {
    if files.manifest.None? {
      return ManifestError;
    }
    var classes := files.manifest.value;
    if imagePath !in files.images {
      return ImageLoadError(imagePath);
    }
    var size := files.images[imagePath];
    var img := new Image(size.width, size.height);
    var labelPath := LabelPath(imagePath, labelsDir);
    if labelPath !in files.labelFiles {
      return LabelFileNotFound(labelPath);
    }
    var labels := files.labelFiles[labelPath];
    DrawLabels(img, labels, classes, parse, draws);
    var outputPath := OutputPath(imagePath, outputDir);
    outcome := Saved(outputPath, img.width, img.height, img.drawn);
  }

  /** An image is written exactly when the manifest loads, the image decodes and its label file exists. */
  lemma SavedIff(imagePath: string, labelsDir: string, outputDir: string, files: Files,
                 parse: string -> Option<real>, draws: nat -> Color)
    ensures Annotate(imagePath, labelsDir, outputDir, files, parse, draws).Saved?
        <==> files.manifest.Some? && imagePath in files.images && LabelPath(imagePath, labelsDir) in files.labelFiles
  {
  }

  /** The checks come in order: a missing manifest hides a missing image, which hides a missing label file. */
  lemma FirstFailureReported(imagePath: string, labelsDir: string, outputDir: string, files: Files,
                             parse: string -> Option<real>, draws: nat -> Color)
    ensures var r := Annotate(imagePath, labelsDir, outputDir, files, parse, draws);
      && (files.manifest.None? ==> r == ManifestError)
      && (files.manifest.Some? && imagePath !in files.images ==> r == ImageLoadError(imagePath))
      && (files.manifest.Some? && imagePath in files.images && LabelPath(imagePath, labelsDir) !in files.labelFiles
          ==> r == LabelFileNotFound(LabelPath(imagePath, labelsDir)))
  {
  }

  /**
   * A saved image keeps the input's name and size, lands in the output
   * directory, and carries one rectangle and one class name per accepted
   * label line, nothing for the others.
   */
  lemma SavedImage(imagePath: string, labelsDir: string, outputDir: string, files: Files,
                   parse: string -> Option<real>, draws: nat -> Color)
    requires Annotate(imagePath, labelsDir, outputDir, files, parse, draws).Saved?
    ensures var r := Annotate(imagePath, labelsDir, outputDir, files, parse, draws);
      var classes := files.manifest.value;
      var lines := files.labelFiles[LabelPath(imagePath, labelsDir)];
      && Basename(r.outputPath) == Basename(imagePath)
      && r.outputPath[..|outputDir|] == outputDir
      && r.width == files.images[imagePath].width && r.height == files.images[imagePath].height
      && |r.drawn| == 2 * |AcceptedBoxes(lines, |classes|, r.width, r.height, parse)| <= 2 * |lines|
      && forall j :: 0 <= j < |r.drawn| ==> (j % 2 == 0 <==> r.drawn[j].Rectangle?) && (r.drawn[j].Text? ==> r.drawn[j].text in classes)
  {
    var r := Annotate(imagePath, labelsDir, outputDir, files, parse, draws);
    var classes := files.manifest.value;
    var lines := files.labelFiles[LabelPath(imagePath, labelsDir)];
    OutputPathShape(imagePath, outputDir);
    AnnotationSize(lines, classes, r.width, r.height, parse, draws);
    forall j | 0 <= j < |r.drawn|
      ensures (j % 2 == 0 <==> r.drawn[j].Rectangle?) && (r.drawn[j].Text? ==> r.drawn[j].text in classes)
    {
      AnnotationTextsAreClassNames(lines, classes, r.width, r.height, parse, draws, j);
    }
  }

  /**
   * The worked example end to end: `images/cat.jpg`, 100 by 100, with the
   * one-class manifest `[cat]` and the label file `labels/cat.txt` holding
   * `0 0.5 0.5 0.2 0.2`, is saved as `output/cat.jpg` with the rectangle
   * `(40,40)-(60,60)` and the text `cat` at `(40,30)`.
   */
  lemma CatExample(parse: string -> Option<real>, draws: nat -> Color)
    requires parse("0") == Some(0.0) && parse("0.5") == Some(0.5) && parse("0.2") == Some(0.2)
    ensures Annotate("images/cat.jpg", "labels", "output",
                     Files(Some(["cat"]), map["images/cat.jpg" := Dimensions(100, 100)],
                           map["labels/cat.txt" := ["0 0.5 0.5 0.2 0.2\n"]]),
                     parse, draws)
         == Saved("output/cat.jpg", 100, 100,
                  [Rectangle(Point(40, 40), Point(60, 60), draws(0), 2),
                   Text("cat", Point(40, 30), HersheySimplex, 0.5, draws(0), 2)])
  {
    CatPaths();
    CatDrawing(parse, draws);
  }

  lemma CatPaths()
    ensures LabelPath("images/cat.jpg", "labels") == "labels/cat.txt"
    ensures OutputPath("images/cat.jpg", "output") == "output/cat.jpg"
  {
    CatImagePath();
    ImagePaths("images", "cat", ".jpg", "labels", "output");
    CatSavedPaths();
  }

  lemma CatImagePath()
    ensures Sep !in "cat" && "cat"[0] != ExtSep
    ensures Sep !in ".jpg" && ".jpg"[0] == ExtSep && ExtSep !in ".jpg"[1..]
    ensures Join("images", "cat" + ".jpg") == "images/cat.jpg"
  {
    assert ".jpg"[1..] == "jpg";
  }

  lemma CatSavedPaths()
    ensures Join("labels", "cat" + ".txt") == "labels/cat.txt"
    ensures Join("output", "cat" + ".jpg") == "output/cat.jpg"
  {
  }

  lemma CatDrawing(parse: string -> Option<real>, draws: nat -> Color)
    requires parse("0") == Some(0.0) && parse("0.5") == Some(0.5) && parse("0.2") == Some(0.2)
    ensures Annotation(["0 0.5 0.5 0.2 0.2\n"], ["cat"], 100, 100, parse, draws)
         == [Rectangle(Point(40, 40), Point(60, 60), draws(0), 2),
             Text("cat", Point(40, 30), HersheySimplex, 0.5, draws(0), 2)]
  {
    var line := "0 0.5 0.5 0.2 0.2\n";
    ExampleLine(parse);
    AcceptedOne(line, 1, 100, 100, parse);
    var boxes := [Box(0, Corners(40, 40, 60, 60))];
    assert AcceptedBoxes([line], 1, 100, 100, parse) == boxes;
    assert boxes[1..] == [];
  }
}
