/**
 * The pneumonia analysis: a YOLO classifier's probabilities become a short
 * verdict and a white caption written on a copy of the X-ray. One class is
 * named when the top confidence reaches 95 percent; below that, two classes.
 */
module Pneumonia {
  import opened Optional
  import opened Text
  import opened Drawing
  import opened Files
  import opened Vision

  const ResultsHeader: string := "Результаты:"
  const NothingFoundMessage: string := "Модель не смогла найти объектов на изображении."
  const ErrorMessage: string := "Произошла ошибка при обработке снимка легких."
  const PreferredFont: Font := TrueType("arial.ttf", 40)

  /** Where the annotated copy for a user is saved. */
  function AnnotatedPath(userId: int): (path: string)
    ensures path != ""
  {
    "documents/" + IntToString(userId) + "_annotated_pneumonia.jpg"
  }

  /** The reply and the caption drawn on the image. */
  datatype Texts = Texts(message: string, banner: string)

  /**
   * The message and the caption for a prediction; None when one of the
   * lookups raises IndexError (the top class index, or the second class
   * and second confidence the low-confidence texts need).
   */
  function Describe(p: Probs, names: seq<string>): (r: Option<Texts>)
    ensures r.Some? <==> p.top1 < |names| && (p.top1conf >= Threshold || (|names| >= 2 && |p.top5conf| >= 2))
  {
    if p.top1 >= |names| then None
    else
      var top := names[p.top1];
      if p.top1conf < Threshold then
        if |names| < 2 || |p.top5conf| < 2 then None
        else Some(Texts(
          ResultsHeader + "\n" + names[0] + " " + Fraction(p.top1conf) + ", " + names[1] + " " + Fraction(p.top5conf[1]),
          names[0] + ": " + Percent(p.top1conf) + "\n" + names[1] + ": " + Percent(p.top5conf[1])))
      else Some(Texts(top + " (" + Percent(p.top1conf) + ")", top + ": " + Percent(p.top1conf)))
  }

  /** `ImageFont.truetype("arial.ttf", size=40)`, falling back to the default font when that raises. */
  function ChooseFont(arialInstalled: bool): Font
  {
    if arialInstalled then PreferredFont else DefaultFont
  }

  /** How a request ends: the reply, the annotated path (`""` for none) and the directory afterwards. */
  datatype Outcome = Outcome(message: string, annotated: string, files: map<string, Picture>)

  /**
   * `process_pneumonia_image(image_path, user_id)` given the directory before
   * the call, with `classifier` the model's result for the image (None when
   * the model raises, Some(None) when it has no `probs`).
   */
  function PneumoniaOutcome(files: map<string, Picture>, denied: Refusals, imagePath: string, userId: int,
                            classifier: Option<Option<Probs>>, names: seq<string>, arialInstalled: bool): Outcome
  {
    var path := AnnotatedPath(userId);
    if imagePath !in files || classifier.None? then Outcome(ErrorMessage, "", files)
    else if classifier.value.None? then Outcome(NothingFoundMessage, "", files)
    else
      var t := Describe(classifier.value.value, names);
      if t.None? || path in denied.write then Outcome(ErrorMessage, "", files)
      else
        var caption := Caption(Point(10.0, 10.0), t.value.banner, White, ChooseFont(arialInstalled));
        Outcome(t.value.message, path, files[path := Draw(files[imagePath], [caption])])
  }

  /** `process_pneumonia_image`: open, classify, write the caption, save the copy. */
  method ProcessPneumoniaImage(fs: FileSystem, imagePath: string, userId: int,
                               classifier: Option<Option<Probs>>, names: seq<string>, arialInstalled: bool)
    returns (message: string, annotated: string)
    modifies fs
    ensures Outcome(message, annotated, fs.files)
      == PneumoniaOutcome(old(fs.files), fs.denied, imagePath, userId, classifier, names, arialInstalled)
  {
    var image := fs.Read(imagePath);
    if image.None? || classifier.None? {
      return ErrorMessage, "";
    }
    if classifier.value.None? {
      return NothingFoundMessage, "";
    }
    var path := AnnotatedPath(userId);
    var font := ChooseFont(arialInstalled);
    var texts := Describe(classifier.value.value, names);
    if texts.None? {
      return ErrorMessage, "";
    }
    var drawn := Draw(image.value, [Caption(Point(10.0, 10.0), texts.value.banner, White, font)]);
    var saved := fs.Write(path, drawn);
    if !saved {
      return ErrorMessage, "";
    }
    message, annotated := texts.value.message, path;
  }

  // ----- what the texts and the outcome promise -----

  /**
   * The reply and the caption are a single line exactly when the top
   * confidence is at least 95 percent (95.00 itself included); below that
   * both have two lines.
   */
  lemma ThresholdDecidesLineCount(p: Probs, names: seq<string>)
    requires Describe(p, names).Some?
    requires forall k :: 0 <= k < |names| ==> '\n' !in names[k]
    ensures var t := Describe(p, names).value;
      && (|SplitLines(t.message)| == 1 <==> p.top1conf >= Threshold)
      && (|SplitLines(t.banner)| == 1 <==> p.top1conf >= Threshold)
      && (p.top1conf < Threshold ==> |SplitLines(t.message)| == 2 && |SplitLines(t.banner)| == 2)
  {
    var t := Describe(p, names).value;
    if p.top1conf < Threshold {
      var c0, c1 := p.top1conf, p.top5conf[1];
      var second := names[0] + " " + Fraction(c0) + ", " + names[1] + " " + Fraction(c1);
      assert t.message == ResultsHeader + "\n" + second;
      ResultsHeaderOneLine();
      SplitTwo(ResultsHeader, second);
      LowConfidenceNamesFirstTwoByIndex(p, names);
    } else {
      var top := names[p.top1];
      assert '\n' !in top + " (" + Percent(p.top1conf) + ")";
      assert '\n' !in top + ": " + Percent(p.top1conf);
    }
  }

  lemma ResultsHeaderOneLine()
    ensures '\n' !in ResultsHeader
  {
  }

  /**
   * At 95 percent or more the reply and the caption are one line each and
   * name the top class only, with its confidence as a percentage.
   */
  lemma HighConfidenceTexts(p: Probs, names: seq<string>)
    requires p.top1 < |names| && p.top1conf >= Threshold && '\n' !in names[p.top1]
    ensures Describe(p, names).Some?
    ensures SplitLines(Describe(p, names).value.message) == [names[p.top1] + " (" + Percent(p.top1conf) + ")"]
    ensures SplitLines(Describe(p, names).value.banner) == [names[p.top1] + ": " + Percent(p.top1conf)]
  {
    var m := names[p.top1] + " (" + Percent(p.top1conf) + ")";
    var b := names[p.top1] + ": " + Percent(p.top1conf);
    assert Describe(p, names).value == Texts(m, b);
    SplitTwo(m, "");
    SplitTwo(b, "");
  }

  /**
   * Below the threshold the caption's two lines name the classes at model
   * index 0 and 1, whichever class is on top, with the top confidence and
   * the second-ranked confidence as percentages.
   */
  lemma LowConfidenceNamesFirstTwoByIndex(p: Probs, names: seq<string>)
    requires p.top1 < |names| && p.top1conf < Threshold && |names| >= 2 && |p.top5conf| >= 2
    requires '\n' !in names[0] && '\n' !in names[1]
    ensures SplitLines(Describe(p, names).value.banner)
      == [names[0] + ": " + Percent(p.top1conf), names[1] + ": " + Percent(p.top5conf[1])]
  {
    var b0 := names[0] + ": " + Percent(p.top1conf);
    var b1 := names[1] + ": " + Percent(p.top5conf[1]);
    assert Describe(p, names).value.banner == b0 + "\n" + b1;
    SplitTwo(b0, b1);
  }

  /**
   * Below the threshold the reply is the results header and one line that
   * names the same two classes by index, with the same two confidences as
   * fractions.
   */
  lemma LowConfidenceReplyNamesFirstTwoByIndex(p: Probs, names: seq<string>)
    requires p.top1 < |names| && p.top1conf < Threshold && |names| >= 2 && |p.top5conf| >= 2
    requires '\n' !in names[0] && '\n' !in names[1]
    ensures SplitLines(Describe(p, names).value.message)
      == [ResultsHeader, names[0] + " " + Fraction(p.top1conf) + ", " + names[1] + " " + Fraction(p.top5conf[1])]
  {
    var second := names[0] + " " + Fraction(p.top1conf) + ", " + names[1] + " " + Fraction(p.top5conf[1]);
    assert Describe(p, names).value.message == ResultsHeader + "\n" + second;
    ResultsHeaderOneLine();
    SplitTwo(ResultsHeader, second);
  }

  /** Below the threshold a model with fewer than two classes makes the request fail with the fixed error. */
  lemma TooFewClassesFail(files: map<string, Picture>, denied: Refusals, imagePath: string, userId: int,
                          p: Probs, names: seq<string>, arialInstalled: bool)
    requires imagePath in files && p.top1conf < Threshold && |names| < 2
    ensures PneumoniaOutcome(files, denied, imagePath, userId, Some(Some(p)), names, arialInstalled)
      == Outcome(ErrorMessage, "", files)
  {
  }

  /** No `probs` gives the fixed "nothing found" reply, no path, and an untouched directory. */
  lemma NoProbsNothingFound(files: map<string, Picture>, denied: Refusals, imagePath: string, userId: int,
                            names: seq<string>, arialInstalled: bool)
    requires imagePath in files
    ensures PneumoniaOutcome(files, denied, imagePath, userId, Some(None), names, arialInstalled)
      == Outcome(NothingFoundMessage, "", files)
  {
  }

  /**
   * The original is never deleted: the directory afterwards is the one
   * before, plus at most the user's annotated copy.
   */
  lemma OriginalKept(files: map<string, Picture>, denied: Refusals, imagePath: string, userId: int,
                     classifier: Option<Option<Probs>>, names: seq<string>, arialInstalled: bool)
    ensures var o := PneumoniaOutcome(files, denied, imagePath, userId, classifier, names, arialInstalled);
      && o.files.Keys <= files.Keys + {AnnotatedPath(userId)}
      && forall q :: q in files && q != AnnotatedPath(userId) ==> q in o.files && o.files[q] == files[q]
  {
  }

  /**
   * A non-empty path is returned exactly when a prediction was described and
   * its copy saved, and it is always the user's fixed path; whether the
   * preferred font is installed never changes the reply or the path.
   */
  lemma AnnotatedExactlyWhenDescribed(files: map<string, Picture>, denied: Refusals, imagePath: string, userId: int,
                                      classifier: Option<Option<Probs>>, names: seq<string>, arialInstalled: bool)
    ensures var o := PneumoniaOutcome(files, denied, imagePath, userId, classifier, names, arialInstalled);
      && (o.annotated != "" <==>
            && imagePath in files && classifier.Some? && classifier.value.Some?
            && Describe(classifier.value.value, names).Some? && AnnotatedPath(userId) !in denied.write)
      && (o.annotated != "" ==> o.annotated == AnnotatedPath(userId) && o.annotated in o.files)
      && o.message == PneumoniaOutcome(files, denied, imagePath, userId, classifier, names, !arialInstalled).message
      && o.annotated == PneumoniaOutcome(files, denied, imagePath, userId, classifier, names, !arialInstalled).annotated
  {
  }

  /** Scenario: 97 percent on the class at index 1 names that class alone. */
  lemma ConfidentScenario()
    ensures Describe(Probs(1, 9700, [9700, 300], [300, 9700]), ["NORMAL", "PNEUMONIA"])
      == Some(Texts("PNEUMONIA (97.00%)", "PNEUMONIA: 97.00%"))
  {
    assert NatToString(9) == "9";
    assert NatToString(97) == "97";
    assert DigitChar(0) == '0';
    var p, names := Probs(1, 9700, [9700, 300], [300, 9700]), ["NORMAL", "PNEUMONIA"];
    assert Percent(p.top1conf) == "97.00%";
    assert names[p.top1] + " (" + "97.00%" + ")" == "PNEUMONIA (97.00%)";
    assert names[p.top1] + ": " + "97.00%" == "PNEUMONIA: 97.00%";
  }

  /** The percentages the scenario prints. */
  lemma ScenarioPercents()
    ensures Percent(6000) == "60.00%" && Percent(4000) == "40.00%"
  {
    assert NatToString(6) == "6" && NatToString(60) == "60" && DigitChar(0) == '0';
    assert NatToString(4) == "4" && NatToString(40) == "40";
  }

  /**
   * Scenario: 60 percent on the class at index 1. The caption pairs the
   * class at index 0 with the top confidence, so it credits NORMAL with 60
   * percent although NORMAL's own probability is 40 percent.
   */
  lemma AmbiguousScenario(p: Probs, names: seq<string>)
    requires p == Probs(1, 6000, [6000, 4000], [4000, 6000]) && names == ["NORMAL", "PNEUMONIA"]
    ensures p.data[0] == 4000
    ensures SplitLines(Describe(p, names).value.banner) == ["NORMAL: 60.00%", "PNEUMONIA: 40.00%"]
  {
    LowConfidenceNamesFirstTwoByIndex(p, names);
    ScenarioPercents();
    assert names[0] + ": " + Percent(p.top1conf) == "NORMAL: 60.00%";
    assert names[1] + ": " + Percent(p.top5conf[1]) == "PNEUMONIA: 40.00%";
  }
}
