/**
 * The one outbound call of the widget: a POST of the selected file to the
 * classification endpoint, and the outcomes its `try`/`catch` distinguishes.
 * The transport itself is not modelled; its outcome is a value.
 */
module Fetch {
  import opened Wrappers
  import opened Text

  /** The selected `File`: its identity (two selections are two objects) and its name. */
  datatype File = File(id: nat, name: string)

  /** What `fetch` is asked to send: method, address and a one-field multipart form. */
  datatype Request = Request(httpMethod: string, url: string, formField: string, file: File)

  const PredictUrl: string := "http://127.0.0.1:5000/predict"

  function PredictRequest(f: File): (q: Request)
    ensures q.httpMethod == "POST" && q.url == PredictUrl && q.formField == "file" && q.file == f
  {
    Request("POST", PredictUrl, "file", f)
  }

  /** The `predicted_emotion` member of the parsed body. */
  datatype Field =
    | Missing        // absent: `undefined.toLowerCase()` throws
    | NotString      // present but not a string: it has no `toLowerCase`, which throws
    | Str(s: string)

  /** The body as `response.json()` sees it. */
  datatype Body =
    | Malformed                       // not JSON, or JSON `null`: parsing or member access throws
    | Parsed(predictedEmotion: Field)

  /** What the awaited `fetch` produced. */
  datatype Response =
    | NetworkError                    // `fetch` rejected
    | Http(status: int, body: Body)

  /** `response.ok`: the status is in the range 200-299. */
  predicate IsOk(status: int) {
    200 <= status <= 299
  }

  /**
   * The label that reaches `setEmotion`, or None when some step of the `try`
   * block threw and the `catch` only logged.
   */
  function PredictedLabel(r: Response): (lbl: Option<string>)
    ensures lbl.Some? <==>
      r.Http? && IsOk(r.status) && r.body.Parsed? && r.body.predictedEmotion.Str?
    ensures lbl.Some? ==> lbl.value == ToLower(r.body.predictedEmotion.s)
  {
    match r
    case NetworkError => None
    case Http(status, body) =>
      if !IsOk(status) then None
      else match body
        case Malformed => None
        case Parsed(Str(s)) => Some(ToLower(s))
        case Parsed(_) => None
  }

  /** Labels that differ only in case reach the widget as the same string. */
  lemma LabelIsCaseInsensitive(status: int, a: string, b: string)
    requires IsOk(status)
    ensures PredictedLabel(Http(status, Parsed(Str(a)))) == PredictedLabel(Http(status, Parsed(Str(b))))
            <==> EqualsIgnoringCase(a, b)
  {
    ToLowerSameIffEqualsIgnoringCase(a, b);
  }

  /** The label that reaches the widget is lower case. */
  lemma LabelIsLowerCase(r: Response)
    requires PredictedLabel(r).Some?
    ensures IsLowerCase(PredictedLabel(r).value)
    ensures ToLower(PredictedLabel(r).value) == PredictedLabel(r).value
  {
    ToLowerIdempotent(r.body.predictedEmotion.s);
  }
}
