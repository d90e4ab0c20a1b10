/**
 * The script's entry point: every entry of the image directory whose name
 * has an image extension is annotated, in listing order. The listing is
 * given as a sequence of names.
 */
module Driver {

  import opened Wrappers
  import opened Drawing
  import opened Paths
  import opened Annotator

  /** The entries the driver hands to `draw_boxes`, in listing order. */
  function ImageEntries(entries: seq<string>): (r: seq<string>)
    ensures |r| <= |entries|
    ensures forall name :: name in r <==> name in entries && IsImageFile(name)
  {
    if entries == [] then []
    else (if IsImageFile(entries[0]) then [entries[0]] else []) + ImageEntries(entries[1..])
  }

  /** Filtering a longer listing extends the filtered shorter one. */
  lemma {:induction false} ImageEntriesAppend(a: seq<string>, b: seq<string>)
    ensures ImageEntries(a + b) == ImageEntries(a) + ImageEntries(b)
    decreases |a|
  {
    if a == [] {
      assert a + b == b;
    } else {
      assert (a + b)[0] == a[0];
      assert (a + b)[1..] == a[1..] + b;
      ImageEntriesAppend(a[1..], b);
    }
  }

  /** One more entry: it is kept exactly when its name passes the filter. */
  lemma ImageEntriesNext(entries: seq<string>, i: nat)
    requires i < |entries|
    ensures ImageEntries(entries[..i + 1])
         == ImageEntries(entries[..i]) + if IsImageFile(entries[i]) then [entries[i]] else []
  {
    assert entries[..i + 1] == entries[..i] + [entries[i]];
    ImageEntriesAppend(entries[..i], [entries[i]]);
    assert [entries[i]][1..] == [];
  }

  /** The calls of `draw_boxes` for `names`, in order; the `k`-th takes colour stream `draws(k)`. */
  function Calls(imageDir: string, names: seq<string>, labelsDir: string, outputDir: string, files: Files,
                 parse: string -> Option<real>, draws: nat -> nat -> Color): (r: seq<Outcome>)
    ensures |r| == |names|
  {
    seq(|names|, k requires 0 <= k < |names| =>
      Annotate(Join(imageDir, names[k]), labelsDir, outputDir, files, parse, draws(k)))
  }

  /** One more image: its call comes last, with the next colour stream. */
  lemma CallsAppend(imageDir: string, names: seq<string>, name: string, labelsDir: string, outputDir: string,
                    files: Files, parse: string -> Option<real>, draws: nat -> nat -> Color)
    ensures Calls(imageDir, names + [name], labelsDir, outputDir, files, parse, draws)
         == Calls(imageDir, names, labelsDir, outputDir, files, parse, draws)
            + [Annotate(Join(imageDir, name), labelsDir, outputDir, files, parse, draws(|names|))]
  {
  }

  /**
   * The driver loop. The `k`-th image annotated takes its colours from the
   * stream `draws(k)`. The result lists, in order, how each call of
   * `draw_boxes` ended; entries that are not images cause no call.
   */
  method Run(imageDir: string, entries: seq<string>, labelsDir: string, outputDir: string, files: Files,
             parse: string -> Option<real>, draws: nat -> nat -> Color)
    returns (outcomes: seq<Outcome>)
    ensures |outcomes| == |ImageEntries(entries)|
    ensures forall k :: 0 <= k < |outcomes| ==>
      outcomes[k] == Annotate(Join(imageDir, ImageEntries(entries)[k]), labelsDir, outputDir, files, parse, draws(k))
  {
    outcomes := [];
    for i := 0 to |entries|
      invariant outcomes == Calls(imageDir, ImageEntries(entries[..i]), labelsDir, outputDir, files, parse, draws)
    {
      var filename := entries[i];
      ImageEntriesNext(entries, i);
      if IsImageFile(filename) {
        CallsAppend(imageDir, ImageEntries(entries[..i]), filename, labelsDir, outputDir, files, parse, draws);
        var imagePath := Join(imageDir, filename);
        var outcome := DrawBoxes(imagePath, labelsDir, outputDir, files, parse, draws(|outcomes|));
        outcomes := outcomes + [outcome];
      }
    }
    assert entries[..|entries|] == entries;
  }
}
