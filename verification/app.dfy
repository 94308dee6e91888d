/**
  The page component (Frontend/src/App.jsx): six pieces of state changed by
  the upload, reset, drag and health-check handlers, and the conditions that
  decide which panel of the results column is rendered.

  Each asynchronous step is an input: what the file read produced
  (`ReadOutcome`), the object URL the browser made for the image, and how
  the `fetch` settled (`Api.FetchOutcome`). An upload is begun only when no
  upload is in progress: while `isLoading` holds, the file input and its
  button are disabled and the drop zone takes no pointer events.
 */
module App {
  import opened Js
  import opened Api
  import ImageUpload
  import PredictionResult

  datatype ApiStatus = Checking | Connected | Disconnected

  /** `checkApiHealth`: connected exactly when the probe resolved with an ok response. */
  function HealthStatus(answer: FetchOutcome): (status: ApiStatus)
    ensures status == Connected <==> answer.Response? && answer.ok
    ensures status != Checking
  {
    match answer
    case NetworkFailure(_) => Disconnected
    case Response(ok, _, _) => if ok then Connected else Disconnected
  }

  /** How `FileReader.readAsDataURL` ends: with the data URL, or with an error event. */
  datatype ReadOutcome = ReadFailed | Read(dataUrl: string)

  const FallbackMessage: string := "Failed to classify image. Please try again."

  /** `err.message || 'Failed to classify image. Please try again.'` */
  function ErrorText(message: string): (text: string)
    ensures text != ""
    ensures message != "" ==> text == message
    ensures message == "" ==> text == FallbackMessage
  {
    if Truthy(Str(message)) then message else FallbackMessage
  }

  /** `dataUrl.split(',')[1]`, where `None` is the `undefined` of a URL without a comma. */
  function PayloadOf(dataUrl: string): (payload: Option<string>)
    ensures payload.None? <==> ',' !in dataUrl
    ensures payload.Some? ==> ',' !in payload.value
  {
    var parts := Split(dataUrl, ',');
    if |parts| > 1 then
      Some(parts[1])
    else
      assert dataUrl == parts[0];
      None
  }

  /** The payload is what lies between the first comma and the second (or the end). */
  lemma {:induction false} PayloadBetweenCommas(head: string, payload: string, rest: string)
    requires ',' !in head && ',' !in payload
    ensures PayloadOf(head + "," + payload) == Some(payload)
    ensures PayloadOf(head + "," + payload + "," + rest) == Some(payload)
  {
    SplitAfterHead(head, ',', payload);
    SplitWithout(payload, ',');
    assert head + "," + payload + "," + rest == head + [','] + (payload + [','] + rest);
    SplitAfterHead(head, ',', payload + [','] + rest);
    SplitAfterHead(payload, ',', rest);
  }

  /** For a data URL as `readAsDataURL` writes it, the payload is the base64 text. */
  lemma DataUrlPayload(mimeType: string, base64: string)
    requires ',' !in mimeType
    requires forall i :: 0 <= i < |base64| ==> IsBase64Char(base64[i])
    ensures PayloadOf("data:" + mimeType + ";base64," + base64) == Some(base64)
  {
    assert forall i :: 0 <= i < |base64| ==> base64[i] != ',';
    assert "data:" + mimeType + ";base64," + base64 == ("data:" + mimeType + ";base64") + "," + base64;
    PayloadBetweenCommas("data:" + mimeType + ";base64", base64, "");
  }

  /** The `fetch` the upload handler issues, with its own literal configuration. */
  datatype Request = Request(url: string, config: map<string, JsValue>)

  /**
    The configuration is written out in full here and does not go through
    `ApiService.request`: a POST with only the JSON content type as header.
   */
  function PredictRequest(env: Option<string>, dataUrl: string): (r: Request)
    ensures r.url == BaseUrl(env) + "/predict"
    ensures r.config.Keys == {"method", "headers", "body"}
    ensures r.config["method"] == Str("POST")
    ensures r.config["headers"] == Obj(map["Content-Type" := Str("application/json")])
    ensures r.config["body"] == Str(ImageBody(PayloadOf(dataUrl)))
  {
    Request(BaseUrl(env) + "/predict",
            map["method" := Str("POST"),
                "headers" := Obj(JsonHeaders),
                "body" := Str(ImageBody(PayloadOf(dataUrl)))])
  }

  /**
    How an upload ends, given what each awaited step produced: the request it
    sent, the image URL it put on show (`None`: left as it was), and the new
    `prediction` and `error`.
   */
  datatype Settlement = Settlement(sent: Option<Request>, shownImage: Option<string>, prediction: JsValue, error: Option<string>)

  /**
    The `try` block of `handleImageUpload`: validate, read, show the image,
    POST, check `response.ok`, parse. Any throw lands in the `catch`, which
    records `err.message` or the fallback text. This handler reports a failed
    response by its status alone, never by the server's `detail`.
   */
  function Settle(env: Option<string>, file: File, read: ReadOutcome, objectUrl: string, answer: FetchOutcome): (s: Settlement)
    ensures s.error.Some? ==> s.error.value != "" && s.prediction == Null
    ensures s.error.None? <==> s.sent.Some? && answer.Response? && answer.ok && answer.body.Json?
    ensures s.error.None? ==> s.prediction == answer.body.value
    ensures s.sent.Some? <==> IsAcceptableImage(file) && read.Read?
    ensures s.sent.Some? ==> s.sent.value == PredictRequest(env, read.dataUrl) && s.shownImage == Some(objectUrl)
    ensures s.sent.None? ==> s.shownImage.None?
    ensures !IsAcceptableImage(file) ==> s.error == Some(ValidateImageFile(file).message)
    ensures IsAcceptableImage(file) && read.ReadFailed? ==> s.error == Some(FallbackMessage)
    ensures s.sent.Some? && answer.Response? && !answer.ok ==> s.error == Some(StatusMessage(answer.status))
    ensures s.sent.Some? && answer.NetworkFailure? ==> s.error == Some(ErrorText(answer.message))
    ensures s.sent.Some? && answer.Response? && answer.ok && answer.body.Unparsable?
            ==> s.error == Some(ErrorText(answer.body.reason))
  {
    match ValidateImageFile(file)
    case Rejected(message) => Settlement(None, None, Null, Some(ErrorText(message)))
    case Accepted =>
      match read
      // the rejection value of a FileReader is an event with no `message`
      case ReadFailed => Settlement(None, None, Null, Some(ErrorText("")))
      case Read(dataUrl) =>
        var sent := Some(PredictRequest(env, dataUrl));
        var shown := Some(objectUrl);
        match answer
        case NetworkFailure(message) => Settlement(sent, shown, Null, Some(ErrorText(message)))
        case Response(ok, status, body) =>
          if !ok then
            Settlement(sent, shown, Null, Some(ErrorText(StatusMessage(status))))
          else
            match body
            case Unparsable(reason) => Settlement(sent, shown, Null, Some(ErrorText(reason)))
            case Json(v) => Settlement(sent, shown, v, None)
  }

  /** Which parts of the page are rendered. */
  datatype Panels = Panels(spinner: bool, result: bool, placeholder: bool, errorBox: bool) {
    /** Exactly one of the four parts is on the page. */
    predicate ExactlyOne() {
      (if spinner then 1 else 0) + (if result then 1 else 0)
        + (if placeholder then 1 else 0) + (if errorBox then 1 else 0) == 1
    }
  }

  /**
    `{isLoading && …}`, `{prediction && !isLoading && …}`,
    `{!prediction && !isLoading && !error && …}` in the results column, and
    `{error && …}` under the upload area.
   */
  function PanelsFor(prediction: JsValue, isLoading: bool, error: Option<string>): (p: Panels)
    ensures !(p.spinner && p.result) && !(p.spinner && p.placeholder) && !(p.result && p.placeholder)
    ensures p.spinner || p.result || p.placeholder || p.errorBox
    ensures p.spinner <==> isLoading
    ensures p.result <==> Truthy(prediction) && !isLoading
    ensures p.errorBox <==> error.Some? && error.value != ""
    ensures p.placeholder <==> !Truthy(prediction) && !isLoading && !(error.Some? && error.value != "")
  {
    var errorShown := error.Some? && Truthy(Str(error.value));
    Panels(isLoading,
           Truthy(prediction) && !isLoading,
           !Truthy(prediction) && !isLoading && !errorShown,
           errorShown)
  }

  /** After an upload: the result alone, the error alone, or (for a falsy body such as `null`) the placeholder alone. */
  lemma {:induction false} SettledPanels(env: Option<string>, file: File, read: ReadOutcome, objectUrl: string, answer: FetchOutcome)
    ensures var s := Settle(env, file, read, objectUrl, answer);
      var p := PanelsFor(s.prediction, false, s.error);
      && !p.spinner
      && (p.errorBox <==> s.error.Some?)
      && (p.result <==> s.error.None? && Truthy(answer.body.value))
      && (p.placeholder <==> s.error.None? && !Truthy(answer.body.value))
      && (p.errorBox ==> !p.result && !p.placeholder)
  {
    var s := Settle(env, file, read, objectUrl, answer);
    if s.error.Some? {
      assert !Truthy(s.prediction);
    }
  }

  /**
    A mocked `{"prediction": "Normal"}` ends in the result panel with that
    body as the prediction (which PredictionResult.NormalBodyRendersNormal
    puts on the normal branch).
   */
  lemma NormalResponseShowsResult(env: Option<string>, file: File, dataUrl: string, objectUrl: string)
    requires IsAcceptableImage(file)
    ensures var body := Obj(map["prediction" := Str("Normal")]);
      var s := Settle(env, file, Read(dataUrl), objectUrl, Response(true, 200, Json(body)));
      && s.error.None? && s.prediction == body
      && PanelsFor(s.prediction, false, s.error) == Panels(false, true, false, false)
  {
    var body := Obj(map["prediction" := Str("Normal")]);
    var s := Settle(env, file, Read(dataUrl), objectUrl, Response(true, 200, Json(body)));
    assert s.error.None? && s.prediction == body;
    assert Truthy(body);
  }

  /** A 500 carrying a `detail` still shows the status text here (the service class would show the detail). */
  lemma ServerErrorShowsStatus(env: Option<string>, file: File, dataUrl: string, objectUrl: string)
    requires IsAcceptableImage(file)
    ensures var body := Json(Obj(map["detail" := Str("model unavailable")]));
      Settle(env, file, Read(dataUrl), objectUrl, Response(false, 500, body)).error
        == Some("HTTP error! status: 500")
  {
    StatusFiveHundred();
  }

  /** The page's state. */
  class AppState {
    const env: Option<string>
    var prediction: JsValue
    var isLoading: bool
    var error: Option<string>
    var uploadedImage: Option<string>
    var dragActive: bool
    var apiStatus: ApiStatus

    /**
      An error is never empty and never shown beside a prediction, and an
      upload in progress has cleared both.
     */
    ghost predicate Valid()
      reads this
    {
      && (error.Some? ==> error.value != "")
      && !(Truthy(prediction) && error.Some?)
      && (isLoading ==> prediction == Null && error.None?)
    }

    constructor (env: Option<string>)
      ensures Valid() && this.env == env
      ensures prediction == Null && !isLoading && error.None? && uploadedImage.None?
      ensures !dragActive && apiStatus == Checking
    {
      this.env := env;
      prediction := Null;
      isLoading := false;
      error := None;
      uploadedImage := None;
      dragActive := false;
      apiStatus := Checking;
    }

    /** The panels the page renders for its current state: in a valid state exactly one of them. */
    function Visible(): (p: Panels)
      reads this
      ensures p.spinner <==> isLoading
      ensures p.result <==> Truthy(prediction) && !isLoading
      ensures Valid() ==> (p.placeholder <==> !Truthy(prediction) && !isLoading && error.None?)
      ensures Valid() ==> (p.errorBox <==> error.Some?)
      ensures Valid() ==> p.ExactlyOne()
    {
      PanelsFor(prediction, isLoading, error)
    }

    /** Run once on mount: the probe's outcome decides `apiStatus` and nothing else. */
    method CheckApiHealth(answer: FetchOutcome) returns (url: string)
      requires Valid()
      modifies this`apiStatus
      ensures Valid()
      ensures url == BaseUrl(env) + "/health"
      ensures apiStatus == HealthStatus(answer)
    {
      url := BaseUrl(env) + "/health";
      if answer.Response? && answer.ok {
        apiStatus := Connected;
      } else {
        apiStatus := Disconnected;
      }
    }

    /** The three setters `handleImageUpload` runs before its first `await`. */
    method BeginUpload()
      requires Valid() && !isLoading
      modifies this`isLoading, this`error, this`prediction
      ensures Valid() && isLoading && error.None? && prediction == Null
      ensures Visible() == Panels(true, false, false, false)
    {
      isLoading := true;
      error := None;
      prediction := Null;
    }

    /** The `try`/`catch`/`finally` of `handleImageUpload`, step by step. */
    method SettleUpload(file: File, read: ReadOutcome, objectUrl: string, answer: FetchOutcome)
      returns (sent: Option<Request>)
      requires Valid() && isLoading
      modifies this`isLoading, this`error, this`prediction, this`uploadedImage
      ensures Valid() && !isLoading
      ensures var s := Settle(env, file, read, objectUrl, answer);
        && sent == s.sent && prediction == s.prediction && error == s.error
        && uploadedImage == (if s.shownImage.Some? then s.shownImage else old(uploadedImage))
    {
      sent := None;
      match ValidateImageFile(file) {
        case Rejected(message) =>
          error := Some(ErrorText(message));
        case Accepted =>
          match read {
            case ReadFailed =>
              error := Some(ErrorText(""));
            case Read(dataUrl) =>
              uploadedImage := Some(objectUrl);
              sent := Some(PredictRequest(env, dataUrl));
              match answer {
                case NetworkFailure(message) =>
                  error := Some(ErrorText(message));
                case Response(ok, status, body) =>
                  if !ok {
                    error := Some(ErrorText(StatusMessage(status)));
                  } else {
                    match body {
                      case Unparsable(reason) =>
                        error := Some(ErrorText(reason));
                      case Json(v) =>
                        prediction := v;
                    }
                  }
              }
          }
      }
      isLoading := false;
    }

    /** `handleImageUpload`, run to completion. */
    method HandleImageUpload(file: File, read: ReadOutcome, objectUrl: string, answer: FetchOutcome)
      returns (sent: Option<Request>)
      requires Valid() && !isLoading
      modifies this`isLoading, this`error, this`prediction, this`uploadedImage
      ensures Valid() && !isLoading
      ensures var s := Settle(env, file, read, objectUrl, answer);
        && sent == s.sent && prediction == s.prediction && error == s.error
        && uploadedImage == (if s.shownImage.Some? then s.shownImage else old(uploadedImage))
    {
      BeginUpload();
      sent := SettleUpload(file, read, objectUrl, answer);
    }

    /** `handleReset`: clears the result, the error and the image; loading, drag and status stay. */
    method HandleReset()
      requires Valid()
      modifies this`prediction, this`error, this`uploadedImage
      ensures Valid()
      ensures prediction == Null && error.None? && uploadedImage.None?
      ensures !isLoading ==> Visible() == Panels(false, false, true, false)
    {
      prediction := Null;
      error := None;
      uploadedImage := None;
    }

    method HandleDrag(eventType: string)
      requires Valid()
      modifies this`dragActive
      ensures Valid()
      ensures dragActive == ImageUpload.DragActiveAfter(old(dragActive), eventType)
    {
      if eventType == "dragenter" || eventType == "dragover" {
        dragActive := true;
      } else if eventType == "dragleave" {
        dragActive := false;
      }
    }

    /** `handleDrop`: deactivates the zone, then uploads the first dropped file if there is one. */
    method HandleDrop(files: seq<File>, read: ReadOutcome, objectUrl: string, answer: FetchOutcome)
      returns (sent: Option<Request>)
      requires Valid() && !isLoading
      modifies this`dragActive, this`isLoading, this`error, this`prediction, this`uploadedImage
      ensures Valid() && !isLoading && !dragActive
      ensures files == [] ==> sent.None? && unchanged(this`prediction, this`error, this`uploadedImage)
      ensures files != [] ==> var s := Settle(env, files[0], read, objectUrl, answer);
        && sent == s.sent && prediction == s.prediction && error == s.error
        && uploadedImage == (if s.shownImage.Some? then s.shownImage else old(uploadedImage))
    {
      dragActive := false;
      sent := None;
      if |files| > 0 {
        sent := HandleImageUpload(files[0], read, objectUrl, answer);
      }
    }

    /** `handleChange`: uploads the first chosen file if there is one; `dragActive` is not touched. */
    method HandleChange(files: seq<File>, read: ReadOutcome, objectUrl: string, answer: FetchOutcome)
      returns (sent: Option<Request>)
      requires Valid() && !isLoading
      modifies this`isLoading, this`error, this`prediction, this`uploadedImage
      ensures Valid() && !isLoading
      ensures files == [] ==> sent.None? && unchanged(this`prediction, this`error, this`uploadedImage)
      ensures files != [] ==> var s := Settle(env, files[0], read, objectUrl, answer);
        && sent == s.sent && prediction == s.prediction && error == s.error
        && uploadedImage == (if s.shownImage.Some? then s.shownImage else old(uploadedImage))
    {
      sent := None;
      if |files| > 0 {
        sent := HandleImageUpload(files[0], read, objectUrl, answer);
      }
    }
  }
}
