# Audio emotion detector widget — a Dafny model

This project models the `AudioEmotionDetector` React component of the client. A user
picks an audio file. The widget shows its name, an audio player and a "Detect Emotion"
button. Pressing the button POSTs the file to a local classification endpoint and stores
the lower-cased `predicted_emotion` label. A constant table maps the six known labels to
an emoji and a title for display.

Layout:

- `wrappers.dfy` (`Wrappers`) holds `Option`, for the `T | null` state.
- `text.dfy` (`Text`) does ASCII lower-casing. Beside it is a reference definition of case-insensitive equality.
- `emotions.dfy` (`Emotions`) holds the `Emotion` union type and the `emotionData` table.
- `fetch.dfy` (`Fetch`) holds the request the widget sends and the outcomes of the awaited `fetch`. Those outcomes are a network error, a non-ok status, a malformed body, a missing or non-string `predicted_emotion`, or a label. The function that turns an outcome into the label that reaches `setEmotion` is here too.
- `detector.dfy` (`Detector`) holds the widget itself:
  - the three state variables as a `State` value;
  - one pure transition function per handler (what the class methods are proved against);
  - class `Widget`, whose fields are the three state variables and whose methods are the handlers, each proved to follow its transition function and to keep the invariant `Consistent` ("a result is only held while a file is loaded, and it is lower case");
  - the state-dependent part of the render;
  - event sequences (`Run`), with lemmas that hold over every reachable state. A render that throws ends the sequence: the component has no error boundary, so React unmounts it and no later event reaches it.

The emoji literals in the component's source file are stored mis-decoded (UTF-8 bytes read as Mac Roman, after a U+F8FF). The model uses the code points they stand for: U+1F60A, U+1F622, U+1F620, U+1F610, U+1F603 and U+1F628.

The model follows the code as written. In particular:

- Selecting a file does not reset `isPlaying`.
- `togglePlayPause` flips the flag even when `play()` rejects. The rejection is only logged.
- An ok response with a label outside the six keys is still stored. The label is declared with the type `Emotion`, but the value comes from a parsed body of type `any`, so nothing checks it. The next render then reads `.emoji` of `undefined` and throws. The exceptions are names inherited from `Object.prototype`: the lookup finds a member with no `emoji` and the display stays blank. Since stored labels are lower case, only `"constructor"` and `"__proto__"` can reach that case.
- An empty label is stored but is falsy, so nothing is shown.
- The object URL made for the player is never revoked.
- No element of the render calls `togglePlayPause`. The player uses the browser's native controls, and those do not update `isPlaying`. The model still includes the handler as written.

## Model

| member | source | states |
|---|---|---|
| `Text.ToLower` | client/components/AudioEmotionDetector.tsx:60 | the result has the input's length, each character is that input character lower-cased, and no upper-case ASCII letter remains |
| `Text.LowerChar` | client/components/AudioEmotionDetector.tsx:60 | an ASCII capital moves up 32 code points, every other character is kept, and the result is never a capital |
| `Text.LowerCharSameIff` | client/components/AudioEmotionDetector.tsx:60 | two characters lower-case to the same character if and only if they are equal, or one is an ASCII capital and the other sits 32 code points above it |
| `Text.ToLowerOfLowerCase` | client/components/AudioEmotionDetector.tsx:60 | a string with no upper-case letter is unchanged by lower-casing |
| `Text.ToLowerIdempotent` | client/components/AudioEmotionDetector.tsx:60 | lower-casing twice equals lower-casing once |
| `Text.ToLowerSameIffEqualsIgnoringCase` | client/components/AudioEmotionDetector.tsx:60 | two strings lower-case to the same string if and only if they have the same length and match character by character up to case. Matching is defined on character codes, not by `LowerChar` |
| `Emotions.Key` | client/components/AudioEmotionDetector.tsx:8 | each member's literal is a non-empty lower-case string |
| `Emotions.Entry` | client/components/AudioEmotionDetector.tsx:10-17 | each table entry has a one-code-point emoji and a capitalised title (an ASCII capital followed by lower-case letters) |
| `Emotions.FromKey` | client/components/AudioEmotionDetector.tsx:8-17 | a string names member `e` exactly when it is `e`'s key, so the table's keys are the six `Emotion` literals and nothing else |
| `Emotions.TableHasSixKeys` | client/components/AudioEmotionDetector.tsx:8-17 | there are six members, the list holds every member, and their keys are pairwise distinct |
| `Emotions.KeyIsLowerCase` | client/components/AudioEmotionDetector.tsx:8 | every key is lower case, so it is its own lower-casing |
| `Emotions.TitleLowerIsKey` | client/components/AudioEmotionDetector.tsx:10-17 | each entry's title, lower-cased, is the key it is stored under |
| `Fetch.PredictRequest` | client/components/AudioEmotionDetector.tsx:46-53 | the request is a POST to `http://127.0.0.1:5000/predict` with the file in the form field `file` |
| `Fetch.IsOk` | client/components/AudioEmotionDetector.tsx:55 | `response.ok`: the status is in 200-299 |
| `Fetch.PredictedLabel` | client/components/AudioEmotionDetector.tsx:49-64 | a label is produced if and only if the response arrived, its status is in 200-299, the body parsed and `predicted_emotion` is a string; the label is that string lower-cased; every other outcome is caught and yields nothing |
| `Fetch.LabelIsCaseInsensitive` | client/components/AudioEmotionDetector.tsx:55-60 | with an ok status, two labels reach the widget as the same value if and only if they are equal up to case |
| `Fetch.LabelIsLowerCase` | client/components/AudioEmotionDetector.tsx:60 | any label that reaches the widget is lower case |
| `Detector.HasAudioElement` | client/components/AudioEmotionDetector.tsx:86-95 | the audio element, and so `audioRef.current`, exists exactly while a file is set |
| `Detector.FirstFile` | client/components/AudioEmotionDetector.tsx:26 | a file is picked if and only if the list is present and non-empty, and it is the first one |
| `Detector.FileUploaded` | client/components/AudioEmotionDetector.tsx:25-31 | with no file the state is unchanged; with a file, `audioFile` becomes that file and `emotion` is cleared; `isPlaying` is never touched; a loaded file stays loaded; the invariant is kept |
| `Detector.PlaybackCall` | client/components/AudioEmotionDetector.tsx:33-39 | no call without an audio element, `pause()` when playing, `play()` when paused |
| `Detector.Toggled` | client/components/AudioEmotionDetector.tsx:33-42 | without an audio element (no file, render guard at lines 86-95) nothing changes; with one, `isPlaying` is negated whatever `play()` does; the file and result are untouched |
| `Detector.ToggleTwice` | client/components/AudioEmotionDetector.tsx:35-40 | two consecutive toggles restore the state |
| `Detector.Ended` | client/components/AudioEmotionDetector.tsx:92 | `isPlaying` becomes false whatever it was; the file and result are untouched |
| `Detector.EndedIdempotent` | client/components/AudioEmotionDetector.tsx:92 | applying `onEnded` twice equals applying it once, and it is a no-op when already paused |
| `Detector.RequestFor` | client/components/AudioEmotionDetector.tsx:44-53 | nothing is sent if and only if no file is loaded; otherwise one POST of the loaded file to the predict endpoint |
| `Detector.Detected` | client/components/AudioEmotionDetector.tsx:43-65 | with no file, or on any failed outcome, the state is unchanged; on success `emotion` is the lower-cased label; the file and playback flag are untouched; the invariant is kept |
| `Detector.DetectIsCaseInsensitive` | client/components/AudioEmotionDetector.tsx:55-61 | with a file loaded and an ok status, two labels lead to the same state if and only if they are equal up to case ("Happy" and "happy" alike) |
| `Detector.ResultFor` | client/components/AudioEmotionDetector.tsx:104-109 | a null or empty result shows nothing; each of the six keys shows its table entry; anything shown is a known key; the display is blank exactly on a name inherited from `Object.prototype` (all twelve, either case); the render throws exactly on a non-empty string that is neither a key nor an inherited name |
| `Detector.BlankOnlyForLowerCaseInheritedKeys` | client/components/AudioEmotionDetector.tsx:104-107 | in a consistent state the blank display comes only from "constructor" or "__proto__", the two inherited names without capitals |
| `Detector.Render` | client/components/AudioEmotionDetector.tsx:86-109 | the file name, player and detect button are shown if and only if a file is loaded, with that file's name; the result area is `ResultFor` of the stored label |
| `Detector.DetectShowsMatchingEntry` | client/components/AudioEmotionDetector.tsx:59-61 | an ok response whose label matches a key up to case leads to that key's emoji and title being displayed |
| `Detector.UnknownLabelFailsRender` | client/components/AudioEmotionDetector.tsx:60 | an ok response with "surprised" is stored unchecked, and the next render's table lookup fails |
| `Detector.UnknownLabelEndsRun` | client/components/AudioEmotionDetector.tsx:60-61 | from a live widget with a file, detecting "surprised" is the last event handled: the failed render unmounts the widget and the events after it change nothing |
| `Detector.Step` | client/components/AudioEmotionDetector.tsx:25-92 | every handler keeps the invariant and never unloads a loaded file |
| `Detector.RunKeepsConsistent` | client/components/AudioEmotionDetector.tsx:20-65 | after any sequence of events from a consistent state, a result is held only while a file is loaded, and it is lower case |
| `Detector.RunKeepsFile` | client/components/AudioEmotionDetector.tsx:25-31 | once a file is loaded, no sequence of events unloads it |
| `Detector.SelectDetectSelect` | client/components/AudioEmotionDetector.tsx:25-61 | select A, detect "angry": the angry entry is shown; select B: `audioFile` is B and the result is cleared before any new detection |
| `Detector.Widget.constructor` | client/components/AudioEmotionDetector.tsx:20-22 | the widget starts with no file, not playing and no result |
| `Detector.Widget.HandleFileUpload` | client/components/AudioEmotionDetector.tsx:25-31 | the fields afterwards are `FileUploaded` of the fields before, and the invariant holds |
| `Detector.Widget.TogglePlayPause` | client/components/AudioEmotionDetector.tsx:33-42 | the media call is `PlaybackCall` of the prior state and the fields afterwards are `Toggled` of the fields before |
| `Detector.Widget.OnEnded` | client/components/AudioEmotionDetector.tsx:92 | the fields afterwards are `Ended` of the fields before |
| `Detector.Widget.DetectEmotion` | client/components/AudioEmotionDetector.tsx:43-65 | the request sent is `RequestFor` of the prior state and the fields afterwards are `Detected` of the prior state and the response |

## Left out

- `Text.ToLower`: lower-cases ASCII letters only. JavaScript's `toLowerCase` also maps non-ASCII letters, and the model has no Unicode case tables.
- `Detector.Widget.DetectEmotion`: the network round-trip is a parameter (`response`), and its result is applied as soon as the handler runs. In the source the state is set after an `await`. A response that arrives after a new file was selected, or after an overlapping second submission, is applied there. The model does not capture those interleavings.
- The HTTP transport, the multipart encoding of the form and JSON parsing are not modelled. The model keeps only what the handler distinguishes about them.
- Audio playback is modelled only as the `isPlaying` flag and the `play()`/`pause()` call requested. The source handles a rejected `play()` promise only by logging it, so the outcome is not an input.
- `URL.createObjectURL` is left out. It is browser I/O and its result is not part of the state.
- `console.error` logging is left out.
- The markup, styling and icon components (`lucide-react`, the `@/components/ui` wrappers) are library code.
- The page shell `client/app/page.tsx` has no logic.
- The classification service `api/api.py` is left out. It is Flask routing, temporary-file I/O, and floating-point feature extraction and inference through foreign libraries. Its outcome appears in the model only as a `Response` value.
- The `Widget` methods have no unmounted state. In the source, a render that throws unmounts the component, and its handlers can no longer run. The methods can still be called after `Render` of their state shows `RenderError`. Only `Run` models the unmount.
- React's scheduling is not modelled. Each handler reads the state of the last render, and the model treats each handler call as one atomic step.
