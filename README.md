# X-ray analysis bot: report building and temporary files

This project models the core of a Telegram bot that analyses X-ray photos.
A user first picks an analysis with a button: lungs (`"pneumonia"`) or fracture (any other value).
The user then sends a photo. The bot:

- saves the photo as `documents/<user>_original.jpg`;
- runs one of two models on it;
- answers with a text report and an annotated copy;
- removes its temporary files.

The model covers four source files:

- `fracture_model.py` is the detector. With no boxes it gives a fixed message and no path. Otherwise the report is a header plus one `class: pct%` line per box, in the order the boxes came. Each box gets a red outline and a caption on the image. The copy is saved as `documents/<user>_annotated_fracture.jpg`. The original is removed in a `finally` block. `delete_file` and `clean_up_files` are best-effort removals that never raise.
- `pneumonia_model.py` is the classifier.
  - At 95 percent or more, the reply names the top class only.
  - Below that, the reply and the caption name the classes at model index 0 and 1. It is the index, not the rank, that decides which classes appear.
  - A prediction without probabilities, or any exception, gives a fixed message and the empty path `""`.
- `app.py` is the bot. It keeps a per-user choice that a button press overwrites. It turns away a photo from a user with no choice and dispatches on the choice. It sends and then removes the annotated copy only when the returned path is truthy. It removes the original on both the success path and the error path, each time only after checking that the file exists.
- `testYolo.py` is an older one-model bot. Whatever the user chose, the photo goes to the classifier.
  - At 95 percent or more, the reply is the top class alone.
  - Below that, the reply is a header plus one line per class probability, in index order.
  - The returned image always carries the top class on a black banner.
  - This bot never removes a file.

How the model is built:

- **Text.** Python's `str(int)`, `f"{x:.2f}"`, `+= line + "\n"` and `split("\n")` are written out exactly in `text.dfy`.
- **Confidences** (`vision.dfy`) are whole numbers of ten-thousandths. So `conf * 100` printed with two decimals is exact, and the threshold of 95 percent is `9500`.
- **The directory** is a `Files.FileSystem` object. It holds a map from path to picture. Two sets of paths, given with the directory (`Files.Refusals`), are the ones the system refuses to write and the ones it refuses to remove; a path may be in either, both or neither.
- **Drawing.** A picture is its pixels plus the drawing commands applied to it. PIL's drawing calls append commands to that list.
- **Model outputs are parameters.**
  - The detector's boxes: `None` when the model call raises.
  - The classifier's result: `None` when the call raises, `Some(None)` when it has no probabilities.
  - The class names.
  - Whether `arial.ttf` is installed, and whether the bot runs on Windows.
  - The text box PIL measures.
- **Chat.** Everything a bot sends is recorded in order. The download of the photo is a parameter: `None` when it fails.
- **Specifications.** Each handler is an imperative method on the bot object. Its `ensures` clause ties its messages and the new directory to a function of the old state: `App.PhotoEffect`, `YoloBot.PhotoEffect`, `Fracture.FractureOutcome` or `Pneumonia.PneumoniaOutcome`. The lemmas then state what the source promises about those functions.

Notes on what the code does:

- Below the threshold with fewer than two class names, `class_names[1]` raises an `IndexError`. No fallback to a single class exists, so the result is the fixed error message (`Pneumonia.TooFewClassesFail`).
- The high-confidence reply is `"{class} ({pct}%)"` and the caption is `"{class}: {pct}%"`; the two formats differ.
- Below the threshold, the two names shown are the ones at index 0 and 1 of `class_names`, whatever the ranking of the classes.
- The annotated copy is removed only by `app.py` and only on its success path. `testYolo.py` removes nothing.

## Model

| member | source | states |
|---|---|---|
| Text.NatToString | fracture_model.py:28 | `str(n)` of a natural number is a non-empty string of digits, one digit exactly when `n < 10` |
| Text.NatToStringRoundTrip | fracture_model.py:28 | reading back the digits of `str(n)` gives `n` |
| Text.IntToString | fracture_model.py:28 | `str(i)` is non-empty, starts with `-` exactly for negative `i`, and is all digits otherwise |
| Text.IntToStringInjective | fracture_model.py:28 | two user ids with the same printed form are equal, so each user gets their own file names |
| Text.FormatFixed2 | fracture_model.py:59 | `f"{x:.2f}"` gives the whole part, a point and two digits, with no newline |
| Text.FormatFixed2RoundTrip | fracture_model.py:59 | two decimals lose nothing of a value held in hundredths: parsing the text gives the value back |
| Text.TwoDigitsValue | fracture_model.py:59 | the two decimal digits read back as the number they write |
| Text.HundredthsDigits | fracture_model.py:59 | a value in hundredths is its whole part, its tenths digit and its hundredths digit |
| Text.JoinSnoc | fracture_model.py:59 | appending `line + "\n"` to the report is appending `line` to its list of lines |
| Text.SplitLines | fracture_model.py:46-59 | the report, built by appending `line + "\n"`, is read back as the pieces between its newlines: at least one piece, none containing a newline |
| Text.SplitJoin | fracture_model.py:46-59 | newline-free lines, each followed by a newline, split back into those lines and one final empty piece |
| Text.SplitJoinAfter | fracture_model.py:46-59 | the same for a header followed by the lines |
| Text.SplitTwo | pneumonia_model.py:45-46 | one line splits into itself; two newline-free lines joined by one newline split back into both |
| Vision.Percent | pneumonia_model.py:46 | `f"{conf * 100:.2f}%"` is a single line |
| Vision.Fraction | pneumonia_model.py:45 | `f"{conf:.2f}"` is a single line |
| Drawing.Draw | fracture_model.py:55-56 | drawing keeps the pixels and appends exactly the given commands after the existing ones |
| Drawing.DrawInSteps | fracture_model.py:55-56 | drawing one batch of commands and then another is drawing them all at once |
| Drawing.OutlineCountAppend | fracture_model.py:55 | the number of rectangles in two batches of commands is the sum of the two counts |
| Files.FileSystem.constructor | app.py:19-21 | the directory starts with the given files and the given write and removal refusals |
| Files.FileSystem.Read | pneumonia_model.py:18 | opening a path succeeds exactly when the file exists, and gives its content |
| Files.FileSystem.Write | app.py:62-63 | a write succeeds exactly when writing the path is not refused; it then sets that one path and changes nothing else |
| Files.FileSystem.Remove | fracture_model.py:20-21 | `os.remove` succeeds exactly when the file exists and its removal is not refused; it then drops that one path and changes nothing else |
| Fracture.AnnotatedPathsDistinct | fracture_model.py:28 | different users get different annotated paths |
| Fracture.DeleteFile | fracture_model.py:17-24 | `delete_file` never fails; the directory afterwards is the old one without the path, unless the removal is refused |
| Fracture.DeleteIdempotent | fracture_model.py:17-24 | deleting a missing path changes nothing; deleting twice is deleting once; no other file changes |
| Fracture.CleanUpRemovesListed | fracture_model.py:78-81 | deleting the listed paths one by one removes exactly the listed, removable paths |
| Fracture.CleanUpFiles | fracture_model.py:78-81 | `clean_up_files` leaves the old directory minus every listed path that can be removed; paths not listed are untouched |
| Fracture.DetectionLines | fracture_model.py:48-59 | one report line per box, none containing a newline |
| Fracture.Annotate | fracture_model.py:48-59 | the loop over the boxes succeeds exactly when every class index has a name, with N lines and 2N drawing commands for N boxes |
| Fracture.AnnotateLineAt | fracture_model.py:52-59 | line i is `name: pct%` of box i, where `name` is the class name of box i |
| Fracture.AnnotateOverlaysAt | fracture_model.py:55-56 | commands 2i and 2i+1 are the red outline and the caption of box i |
| Fracture.AnnotateLines | fracture_model.py:48-59 | the report lines are exactly the per-box lines, in the order the boxes came |
| Fracture.AnnotateOutlines | fracture_model.py:55 | exactly one rectangle is drawn per box |
| Fracture.ReportGrows | fracture_model.py:59 | one `+=` step extends the report by one line after the header |
| Fracture.BoxDrawnInSteps | fracture_model.py:55-56 | drawing a box's rectangle and then its caption is drawing both of its commands |
| Fracture.DrawDetections | fracture_model.py:44-59 | the drawing loop fails exactly when a class index has no name; otherwise the report is the header and the per-box lines, and the image carries the per-box commands |
| Fracture.ProcessFractureImage | fracture_model.py:26-76 | the reply, the path and the directory afterwards are those of `FractureOutcome`: try, then the original's deletion in `finally` |
| Fracture.OriginalAlwaysDeleted | fracture_model.py:74-76 | on every exit path the original is there afterwards exactly when it was there before and its removal is refused |
| Fracture.NoDetections | fracture_model.py:65-70 | no boxes give the fixed "no fractures" message and `None` |
| Fracture.FailuresGiveErrorMessage | fracture_model.py:71-73 | a missing file, a failing model, an unnamed class index or a refused save give the fixed error message and `None` |
| Fracture.AnnotatedExactlyWhenFound | fracture_model.py:26-70 | a path is returned exactly when there are boxes, all named, and the copy could be saved; it is always the user's fixed path |
| Fracture.FoundReport | fracture_model.py:46-64 | with N ≥ 1 named boxes the reply splits into the header, exactly the N box lines in input order, and a final empty piece |
| Fracture.FoundImage | fracture_model.py:55-62 | with N ≥ 1 named boxes the saved copy keeps the original's pixels and carries exactly N more rectangles |
| Pneumonia.AnnotatedPath | pneumonia_model.py:32 | the annotated path is never empty, so a returned path is always truthy |
| Pneumonia.Describe | pneumonia_model.py:27-50 | the texts exist exactly when the top index has a name and either the confidence reaches 95 percent or there are two names and two ranked confidences |
| Pneumonia.ProcessPneumoniaImage | pneumonia_model.py:15-62 | the reply, the path and the directory afterwards are those of `PneumoniaOutcome` |
| Pneumonia.ThresholdDecidesLineCount | pneumonia_model.py:43-50 | reply and caption are one line exactly when the confidence is at least 95 percent (95.00 included); below that they are two lines |
| Pneumonia.HighConfidenceTexts | pneumonia_model.py:47-50 | at 95 percent or more the texts exist; the reply is the single line `{top class} ({pct}%)` and the caption the single line `{top class}: {pct}%`, naming the top class only |
| Pneumonia.LowConfidenceNamesFirstTwoByIndex | pneumonia_model.py:45-46 | below the threshold the caption lines name the classes at index 0 and 1, paired with the top and the second-ranked confidence |
| Pneumonia.LowConfidenceReplyNamesFirstTwoByIndex | pneumonia_model.py:45 | below the threshold the reply is the results header, then one line `{class 0} {top conf}, {class 1} {second conf}` with the classes at index 0 and 1 and the confidences as fractions |
| Pneumonia.TooFewClassesFail | pneumonia_model.py:43-62 | below the threshold with fewer than two class names the index error gives the fixed error message and `""` |
| Pneumonia.NoProbsNothingFound | pneumonia_model.py:24-59 | no probabilities give the "nothing found" message, `""` and an untouched directory |
| Pneumonia.OriginalKept | pneumonia_model.py:15-62 | the original is never deleted; at most the annotated copy is added or replaced |
| Pneumonia.AnnotatedExactlyWhenDescribed | pneumonia_model.py:32-62 | a non-empty path is returned exactly when a prediction was described and saved; it is the user's fixed path; a missing font never changes reply or path |
| Pneumonia.ConfidentScenario | pneumonia_model.py:47-50 | 97 percent on PNEUMONIA gives `PNEUMONIA (97.00%)` and the caption `PNEUMONIA: 97.00%` |
| Pneumonia.AmbiguousScenario | pneumonia_model.py:45-46 | 60 percent on PNEUMONIA: the caption credits NORMAL with 60.00% and PNEUMONIA with 40.00%, although NORMAL's own probability is 40 percent |
| App.OriginalNotAnnotated | app.py:59 | the saved upload never shares its path with either analysis' annotated copy |
| App.NoSelectionRejected | app.py:51-53 | a photo from a user without a choice gets the prompt and touches no file |
| App.DispatchByChoice | app.py:67-75 | the first reply is the pneumonia report for `"pneumonia"` and the fracture report for any other choice |
| App.AnnotatedHandling | app.py:74-83 | the report comes first; a picture is sent exactly when the path is truthy and the file exists; `None` and `""` send no picture; afterwards the directory has lost the copy and the original, each unless its removal is refused, and nothing else is added, changed or removed; the handler escapes exactly when the original is there and cannot be removed |
| App.OriginalRemoved | app.py:85-100 | whenever the handler does not escape with an error, the upload is gone afterwards |
| App.CrashedExactly | app.py:55-100 | the handler escapes with an error exactly when the download fails (the error path reads an unbound `local_path`), or the upload cannot be removed and is there to remove: it was saved, or its save was refused over a file already at that path |
| App.DeliverCompletes | app.py:74-93 | when the original is already gone and a returned copy is removable, delivery completes with the restart prompt |
| App.FractureCompletes | app.py:85-87 | after the fracture analysis on a saved, removable upload the handler never escapes and the upload is gone; it completes with the restart prompt unless the annotated copy cannot be removed |
| App.Bot.constructor | app.py:17 | no user has chosen yet and nothing has been sent |
| App.Bot.Button | app.py:38-45 | the user's choice is overwritten, other users' choices are kept, and the confirmation is sent |
| App.Bot.RecoverFrom | app.py:95-100 | the error path reports the failure and removes the original if it exists; a refused removal escapes |
| App.Bot.Analyse | app.py:66-72 | the reply, path and directory are those of the chosen analysis; `""` from the lungs is kept as a falsy path |
| App.Bot.DeliverResult | app.py:74-93 | what is sent and removed after the analysis is `Deliver` of its result |
| App.Bot.HandlePhoto | app.py:48-100 | the outcome, the messages sent and the directory afterwards are `PhotoEffect` of the old state; the choices are unchanged |
| YoloBot.ClassLines | testYolo.py:91-95 | one line per class probability |
| YoloBot.ClassLinesAt | testYolo.py:91-95 | line i names the class at index i with probability i |
| YoloBot.ListClasses | testYolo.py:90-95 | the list succeeds exactly when every probability has a class name; it is the header and the class lines |
| YoloBot.HighConfidenceReply | testYolo.py:88-89 | at 95 percent and above the reply is one line: the prefix followed by the banner text |
| YoloBot.LowConfidenceReply | testYolo.py:90-95 | below 95 percent the reply splits into the header, then one `name: pct%` line for every class in index order |
| YoloBot.TooManyProbabilitiesFail | testYolo.py:92-93 | below 95 percent, more probabilities than class names make the reply fail |
| YoloBot.BannerShowsTopClass | testYolo.py:97-118 | a completed prediction sends the upload under a black box 10 larger than the text and the top class in white at (5, 5), whichever reply was chosen, then the reply |
| YoloBot.NothingFound | testYolo.py:119-126 | without probabilities the user hears "nothing found" and only the upload is written |
| YoloBot.NothingRemoved | testYolo.py:64-118 | the handler never removes a file and changes none but the upload and its annotated copy |
| YoloBot.NoSelectionRejected | testYolo.py:56-58 | a photo without a choice gets the prompt and touches no file |
| YoloBot.ChoiceIgnored | testYolo.py:53-130 | which analysis was chosen never matters, only whether one was |
| YoloBot.Bot.constructor | testYolo.py:17 | no user has chosen yet and nothing has been sent |
| YoloBot.Bot.Button | testYolo.py:43-50 | the user's choice is overwritten and the confirmation is sent |
| YoloBot.Bot.Respond | testYolo.py:71-126 | what is sent and written once the upload is saved is `Classified` of the directory |
| YoloBot.Bot.HandlePhoto | testYolo.py:53-130 | the outcome, the messages sent and the directory afterwards are `PhotoEffect` of the old state; the choices are unchanged |

## Left out

- Telegram transport: `bot.reply_to`, `send_photo`, `send_message` and `edit_message_text` always succeed and are recorded. A failing send is not modelled. Only a failing download is modelled, as the photo's content being `None`.
- Keyboards and polling are not modelled. Neither are the `start` and `handle_document` handlers, or `main`.
- `.env` loading, logging and `os.makedirs` are not modelled.
- Model inference (`model.predict`, `model(image)`) is not modelled. Its result enters as a parameter.
- Pixel rendering and font metrics are not modelled. Drawing appends commands to a picture. `textbbox` is a parameter.
- Vision.Fraction: `f"{conf:.2f}"` rounds half up on an exact value. Python's rounding of the nearest binary float, which can go the other way, is not modelled.
- Confidences are exact ten-thousandths. A model probability finer than that is not represented.
- YoloBot.ListClasses: iterating `probs` is taken to give the per-class probabilities in index order.
- testRoboflow.py is not part of this model. It is the same bot shell around a different remote model's response.
- Concurrent handlers sharing `user_selection` are not modelled. The selection map is updated one request at a time.
- App.Bot.HandlePhoto: the bytes that `Image.open` reads back are the bytes written. A corrupt image that opens but fails to decode is modelled like a model failure.
- Refusals are per path and per operation, and fixed for the whole run. A removal that fails after `os.path.exists` succeeded, for example because of a race with another process, is the same as a refused path.
- Paths are joined with `/`, as `os.path.join` does on POSIX systems. The `\` separator of Windows is not modelled, although `testYolo.py` otherwise asks whether it runs on Windows.
