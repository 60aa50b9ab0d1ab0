/**
 * The fracture analysis: a YOLO detector's boxes become a report with one
 * line per box and an annotated copy of the X-ray with one outlined box per
 * detection; the uploaded original is deleted whatever happens.
 */
module Fracture {
  import opened Optional
  import opened Text
  import opened Drawing
  import opened Files
  import opened Vision

  const BaseDir: string := "documents"
  const FoundHeader: string := "Обнаружены переломы или трещины:"
  const NoFracturesMessage: string := "На изображении не найдено переломов.\nПроверьте, возможно, имеются смещения."
  const ErrorMessage: string := "Произошла ошибка при обработке снимка перелома."

  /** A box in image coordinates, `(x1, y1, x2, y2)`. */
  datatype Box = Box(x1: real, y1: real, x2: real, y2: real)

  /** One box of the detector's output: its coordinates, class index and confidence. */
  datatype Detection = Detection(box: Box, cls: int, conf: Conf)

  /** Where the annotated copy for a user is saved. */
  function AnnotatedPath(userId: int): string
  {
    BaseDir + "/" + IntToString(userId) + "_annotated_fracture.jpg"
  }

  /** Requests from different users never write the same annotated file. */
  lemma AnnotatedPathsDistinct(u: int, v: int)
    requires u != v
    ensures AnnotatedPath(u) != AnnotatedPath(v)
  {
    if AnnotatedPath(u) == AnnotatedPath(v) {
      var su, sv := IntToString(u), IntToString(v);
      var suffix := "_annotated_fracture.jpg";
      assert |su| == |sv|;
      assert su == AnnotatedPath(u)[|BaseDir| + 1..|BaseDir| + 1 + |su|];
      assert sv == AnnotatedPath(v)[|BaseDir| + 1..|BaseDir| + 1 + |sv|];
      IntToStringInjective(u, v);
    }
  }

  // ----- delete_file and clean_up_files -----

  /** The directory after a best-effort delete: the path is gone unless it was missing or the removal was refused. */
  function AfterDelete(files: map<string, Picture>, unremovable: set<string>, path: string): map<string, Picture>
  {
    if path in files && path !in unremovable then files - {path} else files
  }

  /** Deleting a missing path changes nothing, and deleting twice is deleting once. */
  lemma DeleteIdempotent(files: map<string, Picture>, unremovable: set<string>, path: string)
    ensures path !in files ==> AfterDelete(files, unremovable, path) == files
    ensures AfterDelete(AfterDelete(files, unremovable, path), unremovable, path) == AfterDelete(files, unremovable, path)
    ensures path !in unremovable ==> path !in AfterDelete(files, unremovable, path)
    ensures forall q :: q != path && q in files ==> q in AfterDelete(files, unremovable, path) && AfterDelete(files, unremovable, path)[q] == files[q]
  {
  }

  /** `delete_file`: removes the path if it exists; a failed removal is logged and swallowed, never raised. */
  method DeleteFile(fs: FileSystem, path: string)
    modifies fs
    ensures fs.files == AfterDelete(old(fs.files), fs.denied.remove, path)
  {
    if fs.Exists(path) {
      var removed := fs.Remove(path);
    }
  }

  /** The directory after deleting `paths` one after the other. */
  function AfterCleanUp(files: map<string, Picture>, unremovable: set<string>, paths: seq<string>): map<string, Picture>
  {
    if paths == [] then files else AfterCleanUp(AfterDelete(files, unremovable, paths[0]), unremovable, paths[1..])
  }

  /** Cleaning up removes every listed path whose removal is allowed, and touches nothing else. */
  lemma {:induction false} CleanUpRemovesListed(files: map<string, Picture>, unremovable: set<string>, paths: seq<string>)
    ensures AfterCleanUp(files, unremovable, paths) == files - (set p | p in paths && p !in unremovable)
  {
    if paths == [] {
      assert (set p | p in paths && p !in unremovable) == {};
      assert files - {} == files;
    } else {
      var rest := set p | p in paths[1..] && p !in unremovable;
      var all := set p | p in paths && p !in unremovable;
      CleanUpRemovesListed(AfterDelete(files, unremovable, paths[0]), unremovable, paths[1..]);
      assert all == rest + (if paths[0] !in unremovable then {paths[0]} else {}) by {
        forall p | p in all ensures p in rest || p == paths[0] {
          var k :| 0 <= k < |paths| && paths[k] == p;
          if k > 0 { assert paths[1..][k - 1] == p; }
        }
      }
      assert AfterDelete(files, unremovable, paths[0]) - rest == files - all;
    }
  }

  /** `clean_up_files(*paths)` */
  method CleanUpFiles(fs: FileSystem, paths: seq<string>)
    modifies fs
    ensures fs.files == old(fs.files) - (set p | p in paths && p !in fs.denied.remove)
  {
    for i := 0 to |paths|
      invariant AfterCleanUp(fs.files, fs.denied.remove, paths[i..]) == AfterCleanUp(old(fs.files), fs.denied.remove, paths)
    {
      assert paths[i..][1..] == paths[i + 1..];
      DeleteFile(fs, paths[i]);
    }
    CleanUpRemovesListed(old(fs.files), fs.denied.remove, paths);
  }

  // ----- process_fracture_image -----

  /** A class index the model's `names` dictionary knows. */
  predicate KnownLabel(names: seq<string>, cls: int)
  {
    0 <= cls < |names|
  }

  /** The report line of one box: `f"{class_name}: {confidence * 100:.2f}%"`. */
  function ReportLine(name: string, c: Conf): string
  {
    name + ": " + Percent(c)
  }

  /** The red outline of one box and its caption `f"{class_name} {confidence:.2f}"` at the box's corner. */
  function BoxOverlays(d: Detection, name: string): seq<Overlay>
  {
    [ Outline(Point(d.box.x1, d.box.y1), Point(d.box.x2, d.box.y2), Red, 3),
      Caption(Point(d.box.x1, d.box.y1), name + " " + Fraction(d.conf), Red, DefaultFont) ]
  }

  /** The report line of every box, in the order the boxes came. */
  function DetectionLines(dets: seq<Detection>, names: seq<string>): (lines: seq<string>)
    requires forall i :: 0 <= i < |dets| ==> KnownLabel(names, dets[i].cls)
    requires forall k :: 0 <= k < |names| ==> '\n' !in names[k]
    ensures |lines| == |dets|
    ensures forall i :: 0 <= i < |dets| ==> '\n' !in lines[i]
  {
    seq(|dets|, i requires 0 <= i < |dets| && KnownLabel(names, dets[i].cls) => ReportLine(names[dets[i].cls], dets[i].conf))
  }

  datatype Annotations = Annotations(lines: seq<string>, overlays: seq<Overlay>)

  /**
   * What the loop over the boxes produces: one report line and two drawing
   * commands per box, in the order received; None when some box's class
   * index is not in `names` (the lookup raises).
   */
  function Annotate(dets: seq<Detection>, names: seq<string>): (r: Option<Annotations>)
    ensures r.Some? <==> forall i :: 0 <= i < |dets| ==> KnownLabel(names, dets[i].cls)
    ensures r.Some? ==> |r.value.lines| == |dets| && |r.value.overlays| == 2 * |dets|
  {
    if dets == [] then Some(Annotations([], []))
    else
      var d := dets[|dets| - 1];
      var prefix := Annotate(dets[..|dets| - 1], names);
      if prefix.None? || !KnownLabel(names, d.cls) then None
      else
        var name := names[d.cls];
        Some(Annotations(prefix.value.lines + [ReportLine(name, d.conf)], prefix.value.overlays + BoxOverlays(d, name)))
  }

  /** A named last box adds its line and its two drawing commands after those of the boxes before it. */
  lemma AnnotateSnoc(dets: seq<Detection>, names: seq<string>)
    requires dets != [] && Annotate(dets[..|dets| - 1], names).Some? && KnownLabel(names, dets[|dets| - 1].cls)
    ensures var d := dets[|dets| - 1];
      var prefix := Annotate(dets[..|dets| - 1], names).value;
      Annotate(dets, names) == Some(Annotations(prefix.lines + [ReportLine(names[d.cls], d.conf)],
                                                prefix.overlays + BoxOverlays(d, names[d.cls])))
  {
  }

  /** The i-th box gives the i-th report line. */
  lemma {:induction false} AnnotateLineAt(dets: seq<Detection>, names: seq<string>, i: nat)
    requires Annotate(dets, names).Some? && i < |dets|
    ensures KnownLabel(names, dets[i].cls)
    ensures Annotate(dets, names).value.lines[i] == ReportLine(names[dets[i].cls], dets[i].conf)
  {
    var n := |dets| - 1;
    assert Annotate(dets[..n], names).Some? && KnownLabel(names, dets[n].cls);
    AnnotateSnoc(dets, names);
    if i < n {
      AnnotateLineAt(dets[..n], names, i);
      assert dets[..n][i] == dets[i];
    }
  }

  /** The i-th box gives the (2i)-th and (2i+1)-th drawing commands. */
  lemma {:induction false} AnnotateOverlaysAt(dets: seq<Detection>, names: seq<string>, i: nat)
    requires Annotate(dets, names).Some? && i < |dets|
    ensures KnownLabel(names, dets[i].cls)
    ensures Annotate(dets, names).value.overlays[2 * i..2 * i + 2] == BoxOverlays(dets[i], names[dets[i].cls])
  {
    var n := |dets| - 1;
    assert Annotate(dets[..n], names).Some? && KnownLabel(names, dets[n].cls);
    AnnotateSnoc(dets, names);
    var prefix := Annotate(dets[..n], names).value.overlays;
    var box := BoxOverlays(dets[n], names[dets[n].cls]);
    if i < n {
      AnnotateOverlaysAt(dets[..n], names, i);
      assert dets[..n][i] == dets[i];
    }
    SliceOfAppend(prefix, box, BoxOverlays(dets[i], names[dets[i].cls]), i, n);
  }

  /** The i-th pair of `a + b`, where `a` holds n pairs and `b` one: a pair of `a`, or `b` itself. */
  lemma SliceOfAppend<T>(a: seq<T>, b: seq<T>, pair: seq<T>, i: nat, n: nat)
    requires |a| == 2 * n && |b| == 2 && i <= n
    requires i < n ==> a[2 * i..2 * i + 2] == pair
    requires i == n ==> b == pair
    ensures (a + b)[2 * i..2 * i + 2] == pair
  {
    if i < n {
      assert (a + b)[2 * i..2 * i + 2] == a[2 * i..2 * i + 2];
    } else {
      assert (a + b)[2 * i..2 * i + 2] == b;
    }
  }

  /** The report lines are exactly the per-box lines, in the order the boxes came. */
  lemma AnnotateLines(dets: seq<Detection>, names: seq<string>)
    requires forall i :: 0 <= i < |dets| ==> KnownLabel(names, dets[i].cls)
    requires forall k :: 0 <= k < |names| ==> '\n' !in names[k]
    ensures Annotate(dets, names).value.lines == DetectionLines(dets, names)
  {
    var a := Annotate(dets, names).value;
    forall i | 0 <= i < |dets| ensures a.lines[i] == DetectionLines(dets, names)[i] {
      AnnotateLineAt(dets, names, i);
    }
  }

  /** One rectangle is drawn per box. */
  lemma {:induction false} AnnotateOutlines(dets: seq<Detection>, names: seq<string>)
    requires Annotate(dets, names).Some?
    ensures OutlineCount(Annotate(dets, names).value.overlays) == |dets|
  {
    if dets != [] {
      var n := |dets| - 1;
      var d := dets[n];
      var prefix := Annotate(dets[..n], names).value;
      AnnotateOutlines(dets[..n], names);
      OutlineCountAppend(prefix.overlays, BoxOverlays(d, names[d.cls]));
      var b := BoxOverlays(d, names[d.cls]);
      assert OutlineCount(b) == 1 by {
        assert b[1..][1..] == [];
        assert OutlineCount(b[1..]) == 0;
      }
    }
  }

  /** Appending one line to the report is appending it to the list of lines after the header. */
  lemma ReportGrows(lines: seq<string>, line: string)
    ensures Join([FoundHeader] + lines) + line + "\n" == Join([FoundHeader] + (lines + [line]))
  {
    JoinSnoc([FoundHeader] + lines, line);
    assert [FoundHeader] + lines + [line] == [FoundHeader] + (lines + [line]);
  }

  /** Drawing a box's outline and then its caption is drawing both of its commands. */
  lemma BoxDrawnInSteps(image: Picture, ops: seq<Overlay>, d: Detection, name: string)
    ensures var boxes := BoxOverlays(d, name);
      Draw(Draw(Draw(image, ops), [boxes[0]]), [boxes[1]]) == Draw(image, ops + boxes)
  {
    var boxes := BoxOverlays(d, name);
    DrawInSteps(image, ops, [boxes[0]]);
    DrawInSteps(image, ops + [boxes[0]], [boxes[1]]);
    assert ops + [boxes[0]] + [boxes[1]] == ops + boxes;
  }

  /** The report text and the image once every box is drawn. */
  datatype Drawn = Drawn(message: string, image: Picture)

  /** The loop over the boxes in `process_fracture_image`: draws each box and appends its line to the report, box by box. */
  method DrawDetections(image: Picture, dets: seq<Detection>, names: seq<string>) returns (r: Option<Drawn>)
    ensures r.Some? <==> Annotate(dets, names).Some?
    ensures r.Some? ==> r.value.message == Join([FoundHeader] + Annotate(dets, names).value.lines)
    ensures r.Some? ==> r.value.image == Draw(image, Annotate(dets, names).value.overlays)
  {
    var message := FoundHeader + "\n";
    var drawn := image;
    ghost var done := Annotations([], []);
    assert [FoundHeader][1..] == [];
    assert image.overlays + [] == image.overlays;
    for i := 0 to |dets|
      invariant Annotate(dets[..i], names) == Some(done)
      invariant message == Join([FoundHeader] + done.lines)
      invariant drawn == Draw(image, done.overlays)
    {
      var d := dets[i];
      if !KnownLabel(names, d.cls) {
        assert dets[..i + 1][i] == d;
        return None;
      }
      var name := names[d.cls];
      var line := ReportLine(name, d.conf);
      assert dets[..i + 1][..i] == dets[..i] && dets[..i + 1][i] == d;
      AnnotateSnoc(dets[..i + 1], names);
      var boxes := BoxOverlays(d, name);
      BoxDrawnInSteps(image, done.overlays, d, name);
      drawn := Draw(drawn, [boxes[0]]);
      drawn := Draw(drawn, [boxes[1]]);
      ReportGrows(done.lines, line);
      message := message + line + "\n";
      done := Annotations(done.lines + [line], done.overlays + BoxOverlays(d, name));
    }
    assert dets[..|dets|] == dets;
    r := Some(Drawn(message, drawn));
  }

  /** How a request ends: the reply, the annotated path (None for Python's `None`) and the directory afterwards. */
  datatype Outcome = Outcome(message: string, annotated: Option<string>, files: map<string, Picture>)

  /** Everything inside the `try`, before the `finally` runs. */
  function Analyse(files: map<string, Picture>, denied: Refusals, imagePath: string, userId: int,
                   detector: Option<seq<Detection>>, names: seq<string>): Outcome
  {
    var path := AnnotatedPath(userId);
    if imagePath !in files || detector.None? then Outcome(ErrorMessage, None, files)
    else if detector.value == [] then Outcome(NoFracturesMessage, None, files)
    else
      var a := Annotate(detector.value, names);
      if a.None? || path in denied.write then Outcome(ErrorMessage, None, files)
      else Outcome(Join([FoundHeader] + a.value.lines), Some(path), files[path := Draw(files[imagePath], a.value.overlays)])
  }

  /**
   * `process_fracture_image(image_path, user_id)` given the directory before
   * the call, with `detector` the model's boxes for the image (None when the
   * model raises) and `names` its class names.
   */
  function FractureOutcome(files: map<string, Picture>, denied: Refusals, imagePath: string, userId: int,
                           detector: Option<seq<Detection>>, names: seq<string>): Outcome
  {
    var o := Analyse(files, denied, imagePath, userId, detector, names);
    o.(files := AfterDelete(o.files, denied.remove, imagePath))
  }

  /** `process_fracture_image`: open, detect, draw, save, and delete the original in the `finally`. */
  method ProcessFractureImage(fs: FileSystem, imagePath: string, userId: int,
                              detector: Option<seq<Detection>>, names: seq<string>)
    returns (message: string, annotated: Option<string>)
    modifies fs
    ensures Outcome(message, annotated, fs.files) == FractureOutcome(old(fs.files), fs.denied, imagePath, userId, detector, names)
  {
    var path := AnnotatedPath(userId);
    var image := fs.Read(imagePath);
    if image.None? || detector.None? {
      message, annotated := ErrorMessage, None;
    } else if detector.value == [] {
      message, annotated := NoFracturesMessage, None;
    } else {
      var drawn := DrawDetections(image.value, detector.value, names);
      if drawn.None? {
        message, annotated := ErrorMessage, None;
      } else {
        var saved := fs.Write(path, drawn.value.image);
        if saved {
          message, annotated := drawn.value.message, Some(path);
        } else {
          message, annotated := ErrorMessage, None;
        }
      }
    }
    DeleteFile(fs, imagePath);
  }

  // ----- what the outcome promises -----

  /** On every exit path the original is gone afterwards, unless the system refuses its removal. */
  lemma OriginalAlwaysDeleted(files: map<string, Picture>, denied: Refusals, imagePath: string, userId: int,
                              detector: Option<seq<Detection>>, names: seq<string>)
    ensures imagePath in FractureOutcome(files, denied, imagePath, userId, detector, names).files
      <==> imagePath in files && imagePath in denied.remove
  {
  }

  /** An empty detection list gives the fixed message and no annotated path; the directory only loses the original. */
  lemma NoDetections(files: map<string, Picture>, denied: Refusals, imagePath: string, userId: int, names: seq<string>)
    requires imagePath in files
    ensures var o := FractureOutcome(files, denied, imagePath, userId, Some([]), names);
      o.message == NoFracturesMessage && o.annotated == None && o.files == AfterDelete(files, denied.remove, imagePath)
  {
  }

  /** A model failure, an unreadable original, an unknown class or a refused save give the fixed error message and no path. */
  lemma FailuresGiveErrorMessage(files: map<string, Picture>, denied: Refusals, imagePath: string, userId: int,
                                 detector: Option<seq<Detection>>, names: seq<string>)
    requires || imagePath !in files
             || detector.None?
             || (detector.value != [] && (AnnotatedPath(userId) in denied.write ||
                   exists i :: 0 <= i < |detector.value| && !KnownLabel(names, detector.value[i].cls)))
    ensures var o := FractureOutcome(files, denied, imagePath, userId, detector, names);
      o.message == ErrorMessage && o.annotated == None && o.files == AfterDelete(files, denied.remove, imagePath)
  {
  }

  /** An annotated path is returned exactly when boxes were found, all were named, and the copy could be saved; it is always the user's fixed path. */
  lemma AnnotatedExactlyWhenFound(files: map<string, Picture>, denied: Refusals, imagePath: string, userId: int,
                                  detector: Option<seq<Detection>>, names: seq<string>)
    ensures var o := FractureOutcome(files, denied, imagePath, userId, detector, names);
      && (o.annotated.Some? <==>
            && imagePath in files && detector.Some? && detector.value != []
            && AnnotatedPath(userId) !in denied.write
            && forall i :: 0 <= i < |detector.value| ==> KnownLabel(names, detector.value[i].cls))
      && (o.annotated.Some? ==> o.annotated.value == AnnotatedPath(userId))
  {
  }

  /** With named boxes and a savable copy, the request reports the joined lines and saves the drawn copy. */
  lemma FoundOutcome(files: map<string, Picture>, denied: Refusals, imagePath: string, userId: int,
                     dets: seq<Detection>, names: seq<string>)
    requires imagePath in files && AnnotatedPath(userId) !in denied.write
    requires dets != [] && forall i :: 0 <= i < |dets| ==> KnownLabel(names, dets[i].cls)
    ensures var a := Annotate(dets, names).value;
      FractureOutcome(files, denied, imagePath, userId, Some(dets), names)
        == Outcome(Join([FoundHeader] + a.lines), Some(AnnotatedPath(userId)),
                   AfterDelete(files[AnnotatedPath(userId) := Draw(files[imagePath], a.overlays)], denied.remove, imagePath))
  {
  }

  lemma FoundHeaderOneLine()
    ensures '\n' !in FoundHeader
  {
  }

  /**
   * With N >= 1 named boxes the report reads back as the header, then
   * exactly N lines `class: pct%` in the order the boxes came.
   */
  lemma {:induction false} FoundReport(files: map<string, Picture>, denied: Refusals, imagePath: string, userId: int,
                                       dets: seq<Detection>, names: seq<string>)
    requires imagePath in files && AnnotatedPath(userId) !in denied.write
    requires dets != [] && forall i :: 0 <= i < |dets| ==> KnownLabel(names, dets[i].cls)
    requires forall k :: 0 <= k < |names| ==> '\n' !in names[k]
    ensures var o := FractureOutcome(files, denied, imagePath, userId, Some(dets), names);
      && o.annotated == Some(AnnotatedPath(userId))
      && SplitLines(o.message) == [FoundHeader] + DetectionLines(dets, names) + [""]
  {
    FoundOutcome(files, denied, imagePath, userId, dets, names);
    AnnotateLines(dets, names);
    FoundHeaderOneLine();
    SplitJoinAfter(FoundHeader, DetectionLines(dets, names));
  }

  /** With N >= 1 named boxes the saved copy carries exactly N more rectangles than the original. */
  lemma {:induction false} FoundImage(files: map<string, Picture>, denied: Refusals, imagePath: string, userId: int,
                                      dets: seq<Detection>, names: seq<string>)
    requires imagePath in files && AnnotatedPath(userId) !in denied.write && imagePath != AnnotatedPath(userId)
    requires dets != [] && forall i :: 0 <= i < |dets| ==> KnownLabel(names, dets[i].cls)
    ensures var o := FractureOutcome(files, denied, imagePath, userId, Some(dets), names);
      && AnnotatedPath(userId) in o.files
      && o.files[AnnotatedPath(userId)].pixels == files[imagePath].pixels
      && OutlineCount(o.files[AnnotatedPath(userId)].overlays) == OutlineCount(files[imagePath].overlays) + |dets|
  {
    FoundOutcome(files, denied, imagePath, userId, dets, names);
    var a := Annotate(dets, names).value;
    OutlineCountAppend(files[imagePath].overlays, a.overlays);
    AnnotateOutlines(dets, names);
  }
}
