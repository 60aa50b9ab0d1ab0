/**
 * The bot of `app.py`: a button press records the user's choice of
 * analysis; a photo is saved, handed to the pneumonia or the fracture
 * analysis, answered, and its temporary files are removed.
 */
module App {
  import opened Optional
  import opened Text
  import opened Drawing
  import opened Files
  import opened Vision
  import opened Chat
  import Fracture
  import Pneumonia

  const BaseDir: string := "documents"
  const ChooseFirstMessage: string := "Сначала выберите категорию анализа с помощью меню."
  const FailureMessage: string := "Произошла ошибка при обработке изображения. Попробуйте снова."
  const PhotoCaption: string := "Анализ завершен. Смотрите результат."
  const RestartMessage: string := "Нажмите кнопку ниже, чтобы начать заново."

  /** Where a user's upload is saved; `os.path.join` is taken to join with `/`, as on POSIX systems. */
  function OriginalPath(userId: int): string
  {
    BaseDir + "/" + IntToString(userId) + "_original.jpg"
  }

  /** The confirmation that replaces the menu after a button press. */
  function ChoiceText(data: string): string
  {
    "Вы выбрали: " + (if data == "pneumonia" then "Снимок легких" else "Перелом") + ". Загрузите изображение для анализа."
  }

  /** Python truthiness of a returned annotated path: `None` and `""` are both false. */
  predicate Truthy(path: Option<string>)
  {
    path.Some? && path.value != ""
  }

  /** What the two models answer for the uploaded image, their class names, and whether arial.ttf is installed. */
  datatype Models = Models(detector: Option<seq<Fracture.Detection>>, fractureNames: seq<string>,
                           classifier: Option<Option<Probs>>, pneumoniaNames: seq<string>,
                           arialInstalled: bool)

  /** The result of either analysis, with the pneumonia path `p` read as `Some(p)`. */
  datatype Processed = Processed(message: string, annotated: Option<string>, files: map<string, Picture>)

  /** The dispatch in the `try` block of `handle_photo`: `"pneumonia"` goes to the pneumonia analysis, every other choice to the fracture analysis. */
  function Process(choice: string, files: map<string, Picture>, denied: Refusals, local: string, userId: int,
                   m: Models): Processed
  {
    if choice == "pneumonia" then
      var o := Pneumonia.PneumoniaOutcome(files, denied, local, userId, m.classifier, m.pneumoniaNames, m.arialInstalled);
      Processed(o.message, Some(o.annotated), o.files)
    else
      var o := Fracture.FractureOutcome(files, denied, local, userId, m.detector, m.fractureNames);
      Processed(o.message, o.annotated, o.files)
  }

  /**
   * The `except` block once `local_path` is bound: report the failure, then
   * remove the original if it exists; a refused removal escapes the handler.
   */
  function Recover(sent: seq<Sent>, files: map<string, Picture>, denied: Refusals, local: string): Effect
  {
    var sent' := sent + [Reply(FailureMessage)];
    if local !in files then Effect(Recovered, sent', files)
    else if local in denied.remove then Effect(Crashed, sent', files)
    else Effect(Recovered, sent', files - {local})
  }

  /** The end of the `try` block of `handle_photo`: remove the original if it still exists, then offer a restart. */
  function Finish(sent: seq<Sent>, files: map<string, Picture>, denied: Refusals, local: string): Effect
  {
    if local !in files then Effect(Completed, sent + [Reply(RestartMessage)], files)
    else if local in denied.remove then Recover(sent, files, denied, local)
    else Effect(Completed, sent + [Reply(RestartMessage)], files - {local})
  }

  /** The `try` block of `handle_photo` after the analysis: answer with the report, send and remove the annotated copy if there is one, remove the original. */
  function Deliver(r: Processed, denied: Refusals, local: string): Effect
  {
    var sent := [Reply(r.message)];
    if !Truthy(r.annotated) then Finish(sent, r.files, denied, local)
    else
      var a := r.annotated.value;
      if a !in r.files then Recover(sent, r.files, denied, local)
      else
        var sent' := sent + [Photo(r.files[a], PhotoCaption)];
        if a in denied.remove then Recover(sent', r.files, denied, local)
        else Finish(sent', r.files - {a}, denied, local)
  }

  /**
   * `handle_photo` for a photo from `userId`, given the choices made so far,
   * the directory before the call, the downloaded bytes (None when the
   * download raises) and the models' answers.
   */
  function PhotoEffect(selection: map<int, string>, files: map<string, Picture>, denied: Refusals, userId: int,
                       download: Option<seq<int>>, m: Models): Effect
  {
    if userId !in selection then Effect(Rejected, [Reply(ChooseFirstMessage)], files)
    else if download.None? then Effect(Crashed, [Reply(FailureMessage)], files)
    else
      var local := OriginalPath(userId);
      if local in denied.write then Recover([], files, denied, local)
      else Deliver(Process(selection[userId], files[local := Picture(download.value, [])], denied, local, userId, m), denied, local)
  }

  // ----- what the handler promises -----

  /** The saved upload never shares its path with either annotated copy. */
  lemma OriginalNotAnnotated(u: int, v: int)
    ensures OriginalPath(u) != Fracture.AnnotatedPath(v)
    ensures OriginalPath(u) != Pneumonia.AnnotatedPath(v)
  {
    var o := OriginalPath(u);
    var prefix := BaseDir + "/" + IntToString(u);
    assert o == prefix + "_original.jpg";
    assert o[|prefix| + 1] == 'o';
    var f := Fracture.AnnotatedPath(v);
    var fPrefix := Fracture.BaseDir + "/" + IntToString(v);
    assert f == fPrefix + "_annotated_fracture.jpg";
    var n := Pneumonia.AnnotatedPath(v);
    var nPrefix := "documents/" + IntToString(v);
    assert n == nPrefix + "_annotated_pneumonia.jpg";
    assert o[|prefix|] == '_';
  }

  /** A photo from a user who has not chosen an analysis gets the prompt and touches no file. */
  lemma NoSelectionRejected(selection: map<int, string>, files: map<string, Picture>, denied: Refusals, userId: int,
                            download: Option<seq<int>>, m: Models)
    requires userId !in selection
    ensures PhotoEffect(selection, files, denied, userId, download, m) == Effect(Rejected, [Reply(ChooseFirstMessage)], files)
  {
  }

  /** The first reply is the report of the analysis named by the choice: "pneumonia" for the lungs, anything else for fractures. */
  lemma DispatchByChoice(selection: map<int, string>, files: map<string, Picture>, denied: Refusals, userId: int,
                         download: Option<seq<int>>, m: Models)
    requires userId in selection && download.Some? && OriginalPath(userId) !in denied.write
    ensures var local := OriginalPath(userId);
      var saved := files[local := Picture(download.value, [])];
      var e := PhotoEffect(selection, files, denied, userId, download, m);
      && |e.sent| >= 2
      && e.sent[0] == Reply(if selection[userId] == "pneumonia"
                            then Pneumonia.PneumoniaOutcome(saved, denied, local, userId, m.classifier, m.pneumoniaNames, m.arialInstalled).message
                            else Fracture.FractureOutcome(saved, denied, local, userId, m.detector, m.fractureNames).message)
  {
    var local := OriginalPath(userId);
    var r := Process(selection[userId], files[local := Picture(download.value, [])], denied, local, userId, m);
    AnnotatedHandling(r, denied, local);
  }

  /**
   * Whatever the analysis returned: the report comes first; the copy is sent
   * only for a truthy path that exists, and then removed unless refused; a
   * falsy path sends no picture at all. Afterwards the directory has lost
   * the original and the copy, each unless its removal was refused, and
   * nothing else; the handler escapes exactly when the original is there
   * but cannot be removed.
   */
  lemma AnnotatedHandling(r: Processed, denied: Refusals, local: string)
    ensures var e := Deliver(r, denied, local);
      && |e.sent| >= 2 && e.sent[0] == Reply(r.message)
      && (e.sent[1].Photo? <==> Truthy(r.annotated) && r.annotated.value in r.files)
      && (e.sent[1].Photo? ==> e.sent[1] == Photo(r.files[r.annotated.value], PhotoCaption))
      && (!Truthy(r.annotated) ==> forall k :: 0 <= k < |e.sent| ==> !e.sent[k].Photo?)
      && (Truthy(r.annotated) && r.annotated.value !in denied.remove ==> r.annotated.value !in e.files)
      && (local in e.files <==> local in r.files && local in denied.remove)
      && (forall q :: q in e.files ==> q in r.files && e.files[q] == r.files[q])
      && (forall q :: q in r.files && q != local && (!Truthy(r.annotated) || q != r.annotated.value || q in denied.remove)
                      ==> q in e.files)
      && (e.outcome == Crashed <==> local in r.files && local in denied.remove)
  {
  }

  /** A request that does not crash leaves the user's upload removed (unless it was turned away before saving anything). */
  lemma OriginalRemoved(selection: map<int, string>, files: map<string, Picture>, denied: Refusals, userId: int,
                        download: Option<seq<int>>, m: Models)
    ensures var e := PhotoEffect(selection, files, denied, userId, download, m);
      e.outcome == Completed || e.outcome == Recovered ==> OriginalPath(userId) !in e.files
  {
    var local := OriginalPath(userId);
    if userId in selection && download.Some? && local !in denied.write {
      var r := Process(selection[userId], files[local := Picture(download.value, [])], denied, local, userId, m);
      AnnotatedHandling(r, denied, local);
    }
  }

  /**
   * The handler escapes with an error exactly when the download fails (the
   * `except` block then reads an unbound `local_path`), or when the upload
   * cannot be removed and is there to remove: either it was saved, or the
   * save was refused over a file already at its path.
   */
  lemma {:induction false} CrashedExactly(selection: map<int, string>, files: map<string, Picture>, denied: Refusals, userId: int,
                                          download: Option<seq<int>>, m: Models)
    ensures var local := OriginalPath(userId);
      PhotoEffect(selection, files, denied, userId, download, m).outcome == Crashed
      <==> userId in selection
           && (download.None? || (local in denied.remove && (local !in denied.write || local in files)))
  {
    var local := OriginalPath(userId);
    if userId in selection && download.Some? && local !in denied.write {
      var saved := files[local := Picture(download.value, [])];
      OriginalNotAnnotated(userId, userId);
      if selection[userId] == "pneumonia" {
        Pneumonia.OriginalKept(saved, denied, local, userId, m.classifier, m.pneumoniaNames, m.arialInstalled);
      } else {
        Fracture.OriginalAlwaysDeleted(saved, denied, local, userId, m.detector, m.fractureNames);
      }
      var r := Process(selection[userId], saved, denied, local, userId, m);
      assert local in r.files && local in denied.remove <==> local in denied.remove;
      AnnotatedHandling(r, denied, local);
    }
  }

  /** When the analysis has already removed the original and returned a removable copy, delivery completes. */
  lemma DeliverCompletes(r: Processed, denied: Refusals, local: string)
    requires local !in r.files && local !in denied.remove
    requires Truthy(r.annotated) ==> r.annotated.value in r.files && r.annotated.value !in denied.remove
    ensures var e := Deliver(r, denied, local);
      e.outcome == Completed && e.sent[|e.sent| - 1] == Reply(RestartMessage) && local !in e.files
  {
  }

  /**
   * Once a fracture analysis has run on the saved upload, the request never
   * escapes and the upload is gone: the analysis already removed the
   * original, so the handler's own removal finds nothing to do. It completes
   * with the restart offer unless the annotated copy cannot be removed.
   */
  lemma FractureCompletes(selection: map<int, string>, files: map<string, Picture>, denied: Refusals, userId: int,
                          download: Option<seq<int>>, m: Models)
    requires userId in selection && selection[userId] != "pneumonia" && download.Some?
    requires OriginalPath(userId) !in denied.write && OriginalPath(userId) !in denied.remove
    ensures var e := PhotoEffect(selection, files, denied, userId, download, m);
      && (e.outcome == Completed || e.outcome == Recovered)
      && (Fracture.AnnotatedPath(userId) !in denied.remove ==>
            e.outcome == Completed && e.sent[|e.sent| - 1] == Reply(RestartMessage))
      && OriginalPath(userId) !in e.files
  {
    var local := OriginalPath(userId);
    var saved := files[local := Picture(download.value, [])];
    OriginalNotAnnotated(userId, userId);
    Fracture.OriginalAlwaysDeleted(saved, denied, local, userId, m.detector, m.fractureNames);
    Fracture.AnnotatedExactlyWhenFound(saved, denied, local, userId, m.detector, m.fractureNames);
    var r := Process(selection[userId], saved, denied, local, userId, m);
    AnnotatedHandling(r, denied, local);
    if Fracture.AnnotatedPath(userId) !in denied.remove {
      assert Truthy(r.annotated) ==> r.annotated.value in r.files && r.annotated.value !in denied.remove;
      DeliverCompletes(r, denied, local);
    }
  }

  class Bot {
    /** `user_selection`: the analysis each user chose last. */
    var selection: map<int, string>
    /** Everything the bot has sent, in order. */
    var sent: seq<Sent>
    const fs: FileSystem

    constructor (fs: FileSystem)
      ensures selection == map[] && sent == [] && this.fs == fs
    {
      selection := map[];
      sent := [];
      this.fs := fs;
    }

    /** `button`: records the choice, overwriting an earlier one, and confirms it. */
    method Button(userId: int, data: string)
      modifies this`selection, this`sent
      ensures selection == old(selection)[userId := data]
      ensures sent == old(sent) + [Edit(ChoiceText(data))]
    {
      selection := selection[userId := data];
      sent := sent + [Edit(ChoiceText(data))];
    }

    /** The `except` block of `handle_photo` once `local_path` is bound. */
    method RecoverFrom(local: string) returns (outcome: Outcome)
      modifies this`sent, fs
      ensures var e := Recover([], old(fs.files), fs.denied, local);
        outcome == e.outcome && sent == old(sent) + e.sent && fs.files == e.files
    {
      sent := sent + [Reply(FailureMessage)];
      outcome := Recovered;
      if fs.Exists(local) {
        var removed := fs.Remove(local);
        if !removed {
          outcome := Crashed;
        }
      }
    }

    /** The analysis step of `handle_photo`: runs the analysis the user chose on the saved original. */
    method Analyse(choice: string, local: string, userId: int, m: Models) returns (message: string, annotated: Option<string>)
      modifies fs
      ensures Processed(message, annotated, fs.files) == Process(choice, old(fs.files), fs.denied, local, userId, m)
    {
      if choice == "pneumonia" {
        var text, path := Pneumonia.ProcessPneumoniaImage(fs, local, userId, m.classifier, m.pneumoniaNames, m.arialInstalled);
        message, annotated := text, Some(path);
      } else {
        message, annotated := Fracture.ProcessFractureImage(fs, local, userId, m.detector, m.fractureNames);
      }
    }

    /** The rest of the `try` block of `handle_photo`, after the analysis has returned. */
    method DeliverResult(local: string, message: string, annotated: Option<string>) returns (outcome: Outcome)
      modifies this`sent, fs
      ensures var e := Deliver(Processed(message, annotated, old(fs.files)), fs.denied, local);
        outcome == e.outcome && sent == old(sent) + e.sent && fs.files == e.files
    {
      sent := sent + [Reply(message)];
      if Truthy(annotated) {
        var image := fs.Read(annotated.value);
        if image.None? {
          outcome := RecoverFrom(local);
          return;
        }
        sent := sent + [Photo(image.value, PhotoCaption)];
        if fs.Exists(annotated.value) {
          var removed := fs.Remove(annotated.value);
          if !removed {
            outcome := RecoverFrom(local);
            return;
          }
        }
      }
      if fs.Exists(local) {
        var removed := fs.Remove(local);
        if !removed {
          outcome := RecoverFrom(local);
          return;
        }
      }
      sent := sent + [Reply(RestartMessage)];
      outcome := Completed;
    }

    /** `handle_photo`; it never changes the users' choices. */
    method HandlePhoto(userId: int, download: Option<seq<int>>, m: Models) returns (outcome: Outcome)
      modifies this`sent, fs
      ensures selection == old(selection)
      ensures var e := PhotoEffect(selection, old(fs.files), fs.denied, userId, download, m);
        outcome == e.outcome && sent == old(sent) + e.sent && fs.files == e.files
    {
      if userId !in selection {
        sent := sent + [Reply(ChooseFirstMessage)];
        return Rejected;
      }
      if download.None? {
        // the `except` block reports the failure, then reads the unbound `local_path`
        sent := sent + [Reply(FailureMessage)];
        return Crashed;
      }
      var local := OriginalPath(userId);
      var written := fs.Write(local, Picture(download.value, []));
      if !written {
        outcome := RecoverFrom(local);
        return;
      }
      var message, annotated := Analyse(selection[userId], local, userId, m);
      outcome := DeliverResult(local, message, annotated);
    }
  }
}
