/**
 * The older single-model bot of `testYolo.py`: whatever analysis the user
 * chose, a photo is classified by one model, answered with either the top
 * class or a list of every class, and a copy with the top class written on
 * a black banner is sent back. It never removes a file.
 */
module YoloBot {
  import opened Optional
  import opened Text
  import opened Drawing
  import opened Files
  import opened Vision
  import opened Chat
  import App
  import Fracture

  const PredictedPrefix: string := "Предсказанный класс: "
  const ListHeader: string := "Результаты анализа:"
  const NothingFoundMessage: string := "Модель не смогла найти объектов на изображении."
  const RestartMessage: string := "Нажмите кнопку START ниже, чтобы начать заново."

  /** Where the annotated copy is saved; `os.path.join` is taken to join with `/`, as on POSIX systems. */
  function AnnotatedPath(userId: int): string
  {
    App.BaseDir + "/" + IntToString(userId) + "_annotated.jpg"
  }

  /** The text box `draw.textbbox` reports for the banner text. */
  datatype Bounds = Bounds(left: real, top: real, right: real, bottom: real)

  /**
   * What the world answers for one photo: the model's result (None when the
   * call raises, Some(None) without `probs`), its class names, whether the
   * bot runs on Windows, whether arial.ttf is installed there, and the
   * measured text box.
   */
  datatype Setting = Setting(classifier: Option<Option<Probs>>, names: seq<string>,
                             windows: bool, arialInstalled: bool, bbox: Bounds)

  /** The banner text: the top class and its confidence, `f"{top_class_name} ({confidence:.2f}%)"`. */
  function BannerText(p: Probs, names: seq<string>): string
    requires p.top1 < |names|
  {
    names[p.top1] + " (" + Percent(p.top1conf) + ")"
  }

  /** One line per class probability, in index order; the probability at `idx` is named `class_names[idx]`. */
  function ClassLines(names: seq<string>, data: seq<Conf>): (lines: seq<string>)
    requires |data| <= |names|
    ensures |lines| == |data|
  {
    if data == [] then [] else ClassLines(names, data[..|data| - 1]) + [Fracture.ReportLine(names[|data| - 1], data[|data| - 1])]
  }

  /** Every line of the list is the class at that index with its own probability. */
  lemma {:induction false} ClassLinesAt(names: seq<string>, data: seq<Conf>, i: nat)
    requires |data| <= |names| && i < |data|
    ensures ClassLines(names, data)[i] == Fracture.ReportLine(names[i], data[i])
  {
    if i < |data| - 1 {
      ClassLinesAt(names, data[..|data| - 1], i);
    }
  }

  /**
   * The reply for a prediction: the top class alone at 95 percent and
   * above, otherwise a header and one line per class; None when a class
   * index has no name (the `IndexError` reaches the `except`).
   */
  function Report(p: Probs, names: seq<string>): Option<string>
  {
    if p.top1 >= |names| then None
    else if p.top1conf >= Threshold then Some(PredictedPrefix + BannerText(p, names))
    else if |p.data| > |names| then None
    else Some(Join([ListHeader] + ClassLines(names, p.data)))
  }

  /** `ImageFont.truetype("arial.ttf", size=30)` on Windows, which raises when the font is missing; the default font elsewhere. */
  function BannerFont(windows: bool, arialInstalled: bool): Option<Font>
  {
    if !windows then Some(DefaultFont)
    else if arialInstalled then Some(TrueType("arial.ttf", 30))
    else None
  }

  /** A black rectangle 10 wider and 10 taller than the text, from the corner, and the text in white at (5, 5). */
  function Banner(text: string, font: Font, bbox: Bounds): seq<Overlay>
  {
    [ Filled(Point(0.0, 0.0), Point(bbox.right - bbox.left + 10.0, bbox.bottom - bbox.top + 10.0), Black),
      Caption(Point(5.0, 5.0), text, White, font) ]
  }

  /** The reply and the annotated copy of a successful prediction. */
  datatype Answer = Answer(message: string, image: Picture)

  /** The classification and drawing steps of `handle_photo` in `testYolo.py`: the reply and the drawn copy, or None when any step raises. */
  function Answered(p: Probs, s: Setting, upload: Picture): Option<Answer>
  {
    var report := Report(p, s.names);
    var font := BannerFont(s.windows, s.arialInstalled);
    if report.None? || font.None? then None
    else Some(Answer(report.value, Draw(upload, Banner(BannerText(p, s.names), font.value, s.bbox))))
  }

  /** The `try` block of `handle_photo` in `testYolo.py`, once the upload is saved: classify, send the annotated copy and the reply, offer a restart. */
  function Classified(saved: map<string, Picture>, denied: Refusals, userId: int, upload: Picture, s: Setting): Effect
  {
    var path := AnnotatedPath(userId);
    if s.classifier.None? then Effect(Recovered, [Reply(App.FailureMessage)], saved)
    else if s.classifier.value.None? then Effect(Completed, [Reply(NothingFoundMessage), Reply(RestartMessage)], saved)
    else
      var a := Answered(s.classifier.value.value, s, upload);
      if a.None? || path in denied.write then Effect(Recovered, [Reply(App.FailureMessage)], saved)
      else Effect(Completed, [Photo(a.value.image, App.PhotoCaption), Reply(a.value.message), Reply(RestartMessage)],
                  saved[path := a.value.image])
  }

  /**
   * `handle_photo` for a photo from `userId`, given the choices made so far,
   * the directory before the call, the downloaded bytes (None when the
   * download raises) and the setting.
   */
  function PhotoEffect(selection: map<int, string>, files: map<string, Picture>, denied: Refusals, userId: int,
                       download: Option<seq<int>>, s: Setting): Effect
  {
    var local := App.OriginalPath(userId);
    if userId !in selection then Effect(Rejected, [Reply(App.ChooseFirstMessage)], files)
    else if download.None? || local in denied.write then Effect(Recovered, [Reply(App.FailureMessage)], files)
    else
      var upload := Picture(download.value, []);
      Classified(files[local := upload], denied, userId, upload, s)
  }

  /** The loop over the probabilities in `handle_photo` of `testYolo.py`: the list reply, built line by line; None when a probability has no class name. */
  method ListClasses(names: seq<string>, data: seq<Conf>) returns (message: Option<string>)
    ensures message.Some? <==> |data| <= |names|
    ensures message.Some? ==> message.value == Join([ListHeader] + ClassLines(names, data))
  {
    var text := ListHeader + "\n";
    assert text == Join([ListHeader] + ClassLines(names, data[..0]));
    for idx := 0 to |data|
      invariant idx <= |names|
      invariant text == Join([ListHeader] + ClassLines(names, data[..idx]))
    {
      if idx >= |names| {
        return None;
      }
      var line := Fracture.ReportLine(names[idx], data[idx]);
      JoinSnoc([ListHeader] + ClassLines(names, data[..idx]), line);
      assert data[..idx + 1][..idx] == data[..idx];
      assert [ListHeader] + ClassLines(names, data[..idx + 1]) == [ListHeader] + ClassLines(names, data[..idx]) + [line];
      text := text + line + "\n";
    }
    assert data[..|data|] == data;
    return Some(text);
  }

  // ----- what the handler promises -----

  /** A photo from a user who has not chosen an analysis gets the prompt and touches no file. */
  lemma NoSelectionRejected(selection: map<int, string>, files: map<string, Picture>, denied: Refusals, userId: int,
                            download: Option<seq<int>>, s: Setting)
    requires userId !in selection
    ensures PhotoEffect(selection, files, denied, userId, download, s) == Effect(Rejected, [Reply(App.ChooseFirstMessage)], files)
  {
  }

  /** Which analysis was chosen never matters: only whether one was. */
  lemma ChoiceIgnored(selection: map<int, string>, other: map<int, string>, files: map<string, Picture>, denied: Refusals,
                      userId: int, download: Option<seq<int>>, s: Setting)
    requires userId in selection && userId in other
    ensures PhotoEffect(selection, files, denied, userId, download, s) == PhotoEffect(other, files, denied, userId, download, s)
  {
  }

  lemma PrefixOneLine()
    ensures '\n' !in PredictedPrefix
  {
  }

  lemma ListHeaderOneLine()
    ensures '\n' !in ListHeader
  {
  }

  /** At 95 percent and above the reply is one line: the prefix and then exactly the banner text. */
  lemma HighConfidenceReply(p: Probs, names: seq<string>)
    requires p.top1 < |names| && p.top1conf >= Threshold
    requires '\n' !in names[p.top1]
    ensures Report(p, names) == Some(PredictedPrefix + BannerText(p, names))
    ensures SplitLines(Report(p, names).value) == [Report(p, names).value]
  {
    var r := Report(p, names).value;
    assert r == PredictedPrefix + names[p.top1] + " (" + Percent(p.top1conf) + ")";
    PrefixOneLine();
    assert '\n' !in r;
    SplitTwo(r, "");
  }

  /**
   * Below 95 percent the reply is the header and then one line for every
   * class in index order, each naming the class at that index with its own
   * probability, whichever class is on top.
   */
  lemma {:induction false} LowConfidenceReply(p: Probs, names: seq<string>)
    requires p.top1 < |names| && p.top1conf < Threshold && |p.data| <= |names|
    requires forall k :: 0 <= k < |names| ==> '\n' !in names[k]
    ensures var lines := SplitLines(Report(p, names).value);
      && |lines| == |p.data| + 2 && lines[0] == ListHeader && lines[|lines| - 1] == ""
      && forall i :: 0 <= i < |p.data| ==> lines[i + 1] == Fracture.ReportLine(names[i], p.data[i])
  {
    var cls := ClassLines(names, p.data);
    forall i | 0 <= i < |cls| ensures '\n' !in cls[i] {
      ClassLinesAt(names, p.data, i);
    }
    ListHeaderOneLine();
    SplitJoinAfter(ListHeader, cls);
    forall i | 0 <= i < |p.data| ensures ([ListHeader] + cls + [""])[i + 1] == Fracture.ReportLine(names[i], p.data[i]) {
      ClassLinesAt(names, p.data, i);
    }
  }

  /** Below 95 percent, more probabilities than class names make the listing fail. */
  lemma TooManyProbabilitiesFail(p: Probs, names: seq<string>)
    requires p.top1conf < Threshold && |p.data| > |names|
    ensures Report(p, names) == None
  {
  }

  /**
   * Whenever a picture goes back, it is the upload under a black banner 10
   * larger than the text, with the top class and its confidence in white
   * at (5, 5), whichever reply was chosen; the reply follows it.
   */
  lemma BannerShowsTopClass(selection: map<int, string>, files: map<string, Picture>, denied: Refusals, userId: int,
                            download: Option<seq<int>>, s: Setting)
    requires PhotoEffect(selection, files, denied, userId, download, s).outcome == Completed
    requires s.classifier.Some? && s.classifier.value.Some?
    ensures var p := s.classifier.value.value;
      var e := PhotoEffect(selection, files, denied, userId, download, s);
      && download.Some? && p.top1 < |s.names|
      && |e.sent| == 3 && e.sent[0].Photo? && e.sent[1] == Reply(Report(p, s.names).value)
      && e.sent[0].image.pixels == download.value
      && var ops := e.sent[0].image.overlays;
         && |ops| == 2
         && ops[0].Filled? && ops[0].topLeft == Point(0.0, 0.0) && ops[0].color == Black
         && ops[0].bottomRight.x - ops[0].topLeft.x == s.bbox.right - s.bbox.left + 10.0
         && ops[0].bottomRight.y - ops[0].topLeft.y == s.bbox.bottom - s.bbox.top + 10.0
         && ops[1].Caption? && ops[1].at == Point(5.0, 5.0) && ops[1].color == White
         && ops[1].text == BannerText(p, s.names)
  {
  }

  /** Without `probs` the user hears that nothing was found, and only the upload is written. */
  lemma NothingFound(selection: map<int, string>, files: map<string, Picture>, denied: Refusals, userId: int,
                     download: Option<seq<int>>, s: Setting)
    requires userId in selection && download.Some? && App.OriginalPath(userId) !in denied.write
    requires s.classifier == Some(None)
    ensures var e := PhotoEffect(selection, files, denied, userId, download, s);
      && e.sent == [Reply(NothingFoundMessage), Reply(RestartMessage)]
      && e.files == files[App.OriginalPath(userId) := Picture(download.value, [])]
  {
  }

  /** The handler never removes a file, and changes none but the upload and its annotated copy. */
  lemma NothingRemoved(selection: map<int, string>, files: map<string, Picture>, denied: Refusals, userId: int,
                       download: Option<seq<int>>, s: Setting)
    ensures var e := PhotoEffect(selection, files, denied, userId, download, s);
      && (forall q :: q in files ==> q in e.files)
      && (forall q :: q in e.files && q != App.OriginalPath(userId) && q != AnnotatedPath(userId) ==> q in files && e.files[q] == files[q])
  {
  }

  class Bot {
    /** `user_selection`: the analysis each user chose last. */
    var selection: map<int, string>
    /** Everything the bot has sent, in order. */
    var sent: seq<Sent>
    const fs: FileSystem

    constructor (fs: FileSystem)
      ensures selection == map[] && sent == [] && this.fs == fs
    {
      selection := map[];
      sent := [];
      this.fs := fs;
    }

    /** `button`: records the choice, overwriting an earlier one, and confirms it. */
    method Button(userId: int, data: string)
      modifies this`selection, this`sent
      ensures selection == old(selection)[userId := data]
      ensures sent == old(sent) + [Edit(App.ChoiceText(data))]
    {
      selection := selection[userId := data];
      sent := sent + [Edit(App.ChoiceText(data))];
    }

    /** The `try` block of `handle_photo`, once the upload is saved. */
    method Respond(userId: int, upload: Picture, s: Setting) returns (outcome: Outcome)
      modifies this`sent, fs
      ensures var e := Classified(old(fs.files), fs.denied, userId, upload, s);
        outcome == e.outcome && sent == old(sent) + e.sent && fs.files == e.files
    {
      if s.classifier.None? {
        sent := sent + [Reply(App.FailureMessage)];
        return Recovered;
      }
      if s.classifier.value.None? {
        sent := sent + [Reply(NothingFoundMessage), Reply(RestartMessage)];
        return Completed;
      }
      var p := s.classifier.value.value;
      if p.top1 >= |s.names| {
        sent := sent + [Reply(App.FailureMessage)];
        return Recovered;
      }
      var message: string;
      if p.top1conf >= Threshold {
        message := PredictedPrefix + BannerText(p, s.names);
      } else {
        var listed := ListClasses(s.names, p.data);
        if listed.None? {
          sent := sent + [Reply(App.FailureMessage)];
          return Recovered;
        }
        message := listed.value;
      }
      var font := BannerFont(s.windows, s.arialInstalled);
      if font.None? {
        sent := sent + [Reply(App.FailureMessage)];
        return Recovered;
      }
      var drawn := Draw(upload, Banner(BannerText(p, s.names), font.value, s.bbox));
      var path := AnnotatedPath(userId);
      var saved := fs.Write(path, drawn);
      if !saved {
        sent := sent + [Reply(App.FailureMessage)];
        return Recovered;
      }
      var copy := fs.Read(path);
      sent := sent + [Photo(copy.value, App.PhotoCaption), Reply(message), Reply(RestartMessage)];
      outcome := Completed;
    }

    /** `handle_photo`; it never changes the users' choices. */
    method HandlePhoto(userId: int, download: Option<seq<int>>, s: Setting) returns (outcome: Outcome)
      modifies this`sent, fs
      ensures selection == old(selection)
      ensures var e := PhotoEffect(selection, old(fs.files), fs.denied, userId, download, s);
        outcome == e.outcome && sent == old(sent) + e.sent && fs.files == e.files
    {
      if userId !in selection {
        sent := sent + [Reply(App.ChooseFirstMessage)];
        return Rejected;
      }
      if download.None? {
        sent := sent + [Reply(App.FailureMessage)];
        return Recovered;
      }
      var local := App.OriginalPath(userId);
      var upload := Picture(download.value, []);
      var written := fs.Write(local, upload);
      if !written {
        sent := sent + [Reply(App.FailureMessage)];
        return Recovered;
      }
      outcome := Respond(userId, upload, s);
    }
  }
}
