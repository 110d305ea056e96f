/**
 * The `AudioEmotionDetector` widget: its three state variables, its four event
 * handlers, and the parts of its render that depend on the state.
 *
 * The handlers are modelled twice, as is usual for state updated in place:
 * pure transition functions over a `State` value (the specification, about
 * which the properties are proved) and the methods of class `Widget`, which
 * update the fields and are proved to follow those functions.
 */
module Detector {
  import opened Wrappers
  import opened Text
  import opened Emotions
  import opened Fetch

  /** `audioFile`, `isPlaying` and `emotion`, as the three `useState` hooks hold them. */
  datatype State = State(audioFile: Option<File>, isPlaying: bool, emotion: Option<string>)

  /** The initial values passed to `useState`. */
  const Initial: State := State(None, false, None)

  /** A result is only ever held while some file is loaded, and it is lower case. */
  predicate Consistent(s: State) {
    s.emotion.Some? ==> s.audioFile.Some? && IsLowerCase(s.emotion.value)
  }

  /** The `<audio>` element, and with it `audioRef.current`, exists only while a file is set. */
  predicate HasAudioElement(s: State) {
    s.audioFile.Some?
  }

  // ---------------------------------------------------------------------------
  // handleFileUpload

  /** `event.target.files?.[0]`: nothing when the list is absent or empty. */
  function FirstFile(files: Option<seq<File>>): (f: Option<File>)
    ensures f.Some? <==> files.Some? && |files.value| > 0
    ensures f.Some? ==> f.value == files.value[0]
  {
    match files
    case None => None
    case Some(fs) => if |fs| == 0 then None else Some(fs[0])
  }

  /** The state after a change event on the file input. */
  function FileUploaded(s: State, files: Option<seq<File>>): (t: State)
    ensures FirstFile(files).None? ==> t == s
    ensures FirstFile(files).Some? ==> t.audioFile == FirstFile(files) && t.emotion == None
    ensures t.isPlaying == s.isPlaying
    ensures s.audioFile.Some? ==> t.audioFile.Some?
    ensures Consistent(s) ==> Consistent(t)
  {
    match FirstFile(files)
    case None => s
    case Some(f) => s.(audioFile := Some(f), emotion := None)
  }

  // ---------------------------------------------------------------------------
  // togglePlayPause

  /** What `togglePlayPause` asks of the audio element. */
  datatype MediaCall = NoCall | Pause | Play

  function PlaybackCall(s: State): (c: MediaCall)
    ensures c == NoCall <==> !HasAudioElement(s)
    ensures c == Pause <==> HasAudioElement(s) && s.isPlaying
    ensures c == Play <==> HasAudioElement(s) && !s.isPlaying
  {
    if !HasAudioElement(s) then NoCall else if s.isPlaying then Pause else Play
  }

  /**
   * The state after `togglePlayPause`. A rejected `play()` promise is only
   * logged, so the flag flips whether or not playback started.
   */
  function Toggled(s: State): (t: State)
    ensures !HasAudioElement(s) ==> t == s
    ensures HasAudioElement(s) ==> t.isPlaying != s.isPlaying
    ensures t.audioFile == s.audioFile && t.emotion == s.emotion
  {
    if HasAudioElement(s) then s.(isPlaying := !s.isPlaying) else s
  }

  /** Two toggles in a row restore the state. */
  lemma ToggleTwice(s: State)
    ensures Toggled(Toggled(s)) == s
  {
  }

  // ---------------------------------------------------------------------------
  // onEnded

  /** The state after the audio element's `ended` event. */
  function Ended(s: State): (t: State)
    ensures !t.isPlaying
    ensures t.audioFile == s.audioFile && t.emotion == s.emotion
  {
    s.(isPlaying := false)
  }

  /** `onEnded` twice is `onEnded` once; from a paused state it changes nothing. */
  lemma EndedIdempotent(s: State)
    ensures Ended(Ended(s)) == Ended(s)
    ensures !s.isPlaying ==> Ended(s) == s
  {
  }

  // ---------------------------------------------------------------------------
  // detectEmotion

  /** The request `detectEmotion` sends: none without a file, else one POST of that file. */
  function RequestFor(s: State): (q: Option<Request>)
    ensures q.None? <==> s.audioFile.None?
    ensures q.Some? ==> q.value.file == s.audioFile.value && q.value.formField == "file"
                        && q.value.url == PredictUrl && q.value.httpMethod == "POST"
  {
    match s.audioFile
    case None => None
    case Some(f) => Some(PredictRequest(f))
  }

  /**
   * The state after `detectEmotion` whose request, if one is sent, ends in `r`.
   * The label is stored lower-cased and unchecked: the source casts it to
   * `Emotion` without testing it against the six keys.
   */
  function Detected(s: State, r: Response): (t: State)
    ensures s.audioFile.None? ==> t == s
    ensures PredictedLabel(r).None? ==> t == s
    ensures s.audioFile.Some? && PredictedLabel(r).Some? ==> t.emotion == PredictedLabel(r)
    ensures t.audioFile == s.audioFile && t.isPlaying == s.isPlaying
    ensures t.emotion.Some? ==> IsLowerCase(t.emotion.value) || t.emotion == s.emotion
    ensures Consistent(s) ==> Consistent(t)
  {
    if s.audioFile.None? then s
    else match PredictedLabel(r)
      case None => s
      case Some(l) => s.(emotion := Some(l))
  }

  /**
   * With a file loaded and an ok response, two labels lead to the same state
   * exactly when they are equal up to case ("Happy" and "happy", say).
   */
  lemma {:induction false} DetectIsCaseInsensitive(s: State, status: int, a: string, b: string)
    requires s.audioFile.Some? && IsOk(status)
    ensures Detected(s, Http(status, Parsed(Str(a)))) == Detected(s, Http(status, Parsed(Str(b))))
            <==> EqualsIgnoringCase(a, b)
  {
    LabelIsCaseInsensitive(status, a, b);
    var ta, tb := Detected(s, Http(status, Parsed(Str(a)))), Detected(s, Http(status, Parsed(Str(b))));
    assert ta.emotion == Some(ToLower(a)) && tb.emotion == Some(ToLower(b));
  }

  // ---------------------------------------------------------------------------
  // The result display, `{emotion && (... emotionData[emotion] ...)}`

  /**
   * The names `emotionData` inherits from `Object.prototype`. Each looks up a
   * function or an object that has no `emoji` or `title`. Only "constructor"
   * and "__proto__" are lower case, so only those two can be stored.
   */
  const InheritedKeys: set<string> := {
    "constructor", "__proto__", "toString", "toLocaleString", "valueOf",
    "hasOwnProperty", "isPrototypeOf", "propertyIsEnumerable",
    "__defineGetter__", "__defineSetter__", "__lookupGetter__", "__lookupSetter__"
  }

  datatype ResultView =
    | NoResult                  // `emotion` is null or "" (falsy): nothing is rendered
    | Shown(display: Display)   // one of the six entries
    | Blank                     // an inherited member: both lookups give `undefined`
    | RenderError(key: string)  // `emotionData[key]` is `undefined`, and `.emoji` throws

  function ResultFor(emotion: Option<string>): (v: ResultView)
    ensures emotion.None? || emotion == Some("") ==> v == NoResult
    ensures forall e :: emotion == Some(Key(e)) ==> v == Shown(Entry(e))
    ensures v.Shown? ==> emotion.Some? && FromKey(emotion.value).Some?
    ensures v == Blank <==> emotion.Some? && emotion.value in InheritedKeys
    ensures v.RenderError? <==>
      emotion.Some? && emotion.value != "" && FromKey(emotion.value).None? && emotion.value !in InheritedKeys
    ensures v.RenderError? ==> v.key == emotion.value
  {
    match emotion
    case None => NoResult
    case Some(k) =>
      if k == "" then NoResult
      else match FromKey(k)
        case Some(e) => Shown(Entry(e))
        case None => if k in InheritedKeys then Blank else RenderError(k)
  }

  /**
   * What the widget shows beyond the always present upload control: the file
   * name, player and detect button while a file is set, and the result.
   */
  datatype View = View(loadedFileName: Option<string>, result: ResultView)

  function Render(s: State): (v: View)
    ensures v.loadedFileName.Some? <==> HasAudioElement(s)
    ensures v.loadedFileName.Some? ==> v.loadedFileName.value == s.audioFile.value.name
    ensures v.result == ResultFor(s.emotion)
  {
    View(if s.audioFile.Some? then Some(s.audioFile.value.name) else None, ResultFor(s.emotion))
  }

  /**
   * With a file loaded, an ok response whose label matches a key up to case
   * shows that key's entry.
   */
  lemma {:induction false} DetectShowsMatchingEntry(s: State, status: int, l: string, e: Emotion)
    requires s.audioFile.Some? && IsOk(status) && EqualsIgnoringCase(l, Key(e))
    ensures Render(Detected(s, Http(status, Parsed(Str(l))))).result == Shown(Entry(e))
  {
    ToLowerSameIffEqualsIgnoringCase(l, Key(e));
    KeyIsLowerCase(e);
  }

  /**
   * In a consistent state the stored label is lower case, so of the inherited
   * names only "constructor" and "__proto__" can produce the blank display.
   */
  lemma BlankOnlyForLowerCaseInheritedKeys(s: State)
    requires Consistent(s) && ResultFor(s.emotion) == Blank
    ensures s.emotion.value == "constructor" || s.emotion.value == "__proto__"
  {
    InheritedKeysWithCapitals();
  }

  /** Every inherited name other than "constructor" and "__proto__" has a capital letter. */
  lemma InheritedKeysWithCapitals()
    ensures forall k :: k in InheritedKeys && IsLowerCase(k) ==> k == "constructor" || k == "__proto__"
  {
    assert IsUpperAscii("toString"[2]);
    assert IsUpperAscii("toLocaleString"[2]);
    assert IsUpperAscii("valueOf"[5]);
    assert IsUpperAscii("hasOwnProperty"[3]);
    assert IsUpperAscii("isPrototypeOf"[2]);
    assert IsUpperAscii("propertyIsEnumerable"[8]);
    assert IsUpperAscii("__defineGetter__"[8]);
    assert IsUpperAscii("__defineSetter__"[8]);
    assert IsUpperAscii("__lookupGetter__"[8]);
    assert IsUpperAscii("__lookupSetter__"[8]);
  }

  /**
   * An ok response whose label is not one of the six keys is still stored, and
   * the next render's lookup fails: the source does not check the cast.
   */
  lemma UnknownLabelFailsRender(s: State)
    requires s.audioFile.Some?
    ensures Detected(s, Http(200, Parsed(Str("surprised")))).emotion == Some("surprised")
    ensures Render(Detected(s, Http(200, Parsed(Str("surprised"))))).result == RenderError("surprised")
  {
    var l := "surprised";
    SurprisedIsUnknownLowerCase();
    ToLowerOfLowerCase(l);
    var r := Http(200, Parsed(Str(l)));
    assert PredictedLabel(r) == Some(l);
  }

  lemma SurprisedIsUnknownLowerCase()
    ensures IsLowerCase("surprised")
    ensures FromKey("surprised").None? && "surprised" !in InheritedKeys
  {
    var l := "surprised";
    forall i | 0 <= i < |l| ensures !IsUpperAscii(l[i]) {
    }
    forall e ensures Key(e) != l {
      assert |Key(e)| < |l|;
    }
    forall k | k in InheritedKeys ensures k != l {
      assert k[0] != l[0];
    }
  }

  // ---------------------------------------------------------------------------
  // Sequences of events

  datatype Event =
    | FileChange(files: Option<seq<File>>)
    | TogglePressed
    | PlaybackEnded
    | DetectPressed(response: Response)

  function Step(s: State, ev: Event): (t: State)
    ensures Consistent(s) ==> Consistent(t)
    ensures s.audioFile.Some? ==> t.audioFile.Some?
  {
    match ev
    case FileChange(files) => FileUploaded(s, files)
    case TogglePressed => Toggled(s)
    case PlaybackEnded => Ended(s)
    case DetectPressed(r) => Detected(s, r)
  }

  /**
   * The render threw: the component has no error boundary, so React unmounts
   * it and its state, and no further event reaches it.
   */
  predicate RenderFailed(s: State) {
    Render(s).result.RenderError?
  }

  /** The state after handling `evs` in order, starting from `s`; nothing is handled once the render has failed. */
  function Run(s: State, evs: seq<Event>): State
    decreases |evs|
  {
    if evs == [] || RenderFailed(s) then s else Run(Step(s, evs[0]), evs[1..])
  }

  /** Every state the widget can reach holds a result only while a file is loaded. */
  lemma {:induction false} RunKeepsConsistent(s: State, evs: seq<Event>)
    requires Consistent(s)
    ensures Consistent(Run(s, evs))
    decreases |evs|
  {
    if evs != [] {
      RunKeepsConsistent(Step(s, evs[0]), evs[1..]);
    }
  }

  /** Once a file is loaded no event unloads it. */
  lemma {:induction false} RunKeepsFile(s: State, evs: seq<Event>)
    requires s.audioFile.Some?
    ensures Run(s, evs).audioFile.Some?
    decreases |evs|
  {
    if evs != [] {
      RunKeepsFile(Step(s, evs[0]), evs[1..]);
    }
  }

  /**
   * A detection that stores an unknown label ends the widget: the events after
   * it are not handled, and the failed state is the last one.
   */
  lemma {:induction false} UnknownLabelEndsRun(s: State, evs: seq<Event>)
    requires s.audioFile.Some? && !RenderFailed(s)
    ensures Run(s, [DetectPressed(Http(200, Parsed(Str("surprised"))))] + evs)
            == Detected(s, Http(200, Parsed(Str("surprised"))))
  {
    var r := Http(200, Parsed(Str("surprised")));
    var all := [DetectPressed(r)] + evs;
    var t := Detected(s, r);
    UnknownLabelFailsRender(s);
    assert Step(s, all[0]) == t;
    assert all[1..] == evs;
    assert Run(s, all) == Run(t, evs);
  }

  /**
   * Select file A, detect "angry", select file B: the result is cleared as
   * soon as B is selected, before any new detection.
   */
  lemma SelectDetectSelect(a: File, b: File, status: int)
    requires IsOk(status)
    ensures var s1 := FileUploaded(Initial, Some([a]));
            var s2 := Detected(s1, Http(status, Parsed(Str("angry"))));
            var s3 := FileUploaded(s2, Some([b]));
            s2.emotion == Some("angry") && Render(s2).result == Shown(Entry(Angry))
            && s3.audioFile == Some(b) && s3.emotion == None && Render(s3).result == NoResult
  {
    KeyIsLowerCase(Angry);
  }

  // ---------------------------------------------------------------------------
  // The widget instance

  class Widget {
    var audioFile: Option<File>
    var isPlaying: bool
    var emotion: Option<string>

    function Snapshot(): State
      reads this
    {
      State(audioFile, isPlaying, emotion)
    }

    ghost predicate Valid()
      reads this
    {
      Consistent(Snapshot())
    }

    constructor ()
      ensures Valid()
      ensures Snapshot() == Initial
    {
      audioFile, isPlaying, emotion := None, false, None;
    }

    /** `handleFileUpload`: the change event carries `files` (null or a list). */
    method HandleFileUpload(files: Option<seq<File>>)
      requires Valid()
      modifies this
      ensures Valid()
      ensures Snapshot() == FileUploaded(old(Snapshot()), files)
    {
      var file := if files.Some? && |files.value| > 0 then Some(files.value[0]) else None;
      if file.Some? {
        audioFile := file;
        emotion := None;
      }
    }

    /** `togglePlayPause`; `call` is the method invoked on the audio element, if any. */
    method TogglePlayPause() returns (call: MediaCall)
      requires Valid()
      modifies this
      ensures Valid()
      ensures call == PlaybackCall(old(Snapshot()))
      ensures Snapshot() == Toggled(old(Snapshot()))
    {
      call := NoCall;
      if audioFile.Some? {
        if isPlaying {
          call := Pause;
        } else {
          call := Play;
        }
        isPlaying := !isPlaying;
      }
    }

    /** The `onEnded` callback of the audio element. */
    method OnEnded()
      requires Valid()
      modifies this
      ensures Valid()
      ensures Snapshot() == Ended(old(Snapshot()))
    {
      isPlaying := false;
    }

    /**
     * `detectEmotion`: `sent` is the request handed to `fetch`, and `response`
     * is what that request ends in (ignored when nothing is sent).
     */
    method DetectEmotion(response: Response) returns (sent: Option<Request>)
      requires Valid()
      modifies this
      ensures Valid()
      ensures sent == RequestFor(old(Snapshot()))
      ensures Snapshot() == Detected(old(Snapshot()), response)
    {
      if audioFile.None? {
        return None;
      }
      sent := Some(Request("POST", PredictUrl, "file", audioFile.value));
      if response.Http? && IsOk(response.status) && response.body.Parsed?
         && response.body.predictedEmotion.Str? {
        emotion := Some(ToLower(response.body.predictedEmotion.s));
      }
    }
  }
}
