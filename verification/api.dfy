/**
  The API client of the frontend (Frontend/src/services/api.js): the upload
  validation gate, the base URL, how `request` builds its URL and its fetch
  configuration, which message it throws for a failed response, and the
  bodies of the four endpoint wrappers. `fetch` itself is not modelled: what
  the network answered is a parameter (`FetchOutcome`).
 */
module Api {
  import opened Js
  import Digits

  // ---------------------------------------------------------------- validation

  /** What the frontend reads of a browser `File`: its MIME type and its size in bytes. */
  datatype File = File(mimeType: string, size: nat)

  const ValidTypes: seq<string> := ["image/jpeg", "image/jpg", "image/png"]
  const MaxSize: nat := 10 * 1024 * 1024
  const InvalidTypeMessage: string := "Please upload a valid image file (JPEG, JPG, or PNG)"
  const TooLargeMessage: string := "File size must be less than 10MB"

  datatype Validation = Accepted | Rejected(message: string)

  /** The rule every upload path enforces: an allowed image type of at most 10 MiB. */
  predicate IsAcceptableImage(file: File) {
    file.mimeType in {"image/jpeg", "image/jpg", "image/png"} && file.size <= 10_485_760
  }

  /**
    `validateImageFile`: the type is checked first, then the size; a thrown
    error is a `Rejected` carrying its message.
   */
  function ValidateImageFile(file: File): (r: Validation)
    ensures r.Accepted? <==> IsAcceptableImage(file)
    ensures !IsAcceptableImage(file) && file.mimeType in ValidTypes ==> r == Rejected(TooLargeMessage)
    ensures file.mimeType !in ValidTypes ==> r == Rejected(InvalidTypeMessage)
  {
    if file.mimeType !in ValidTypes then
      Rejected(InvalidTypeMessage)
    else if file.size > MaxSize then
      Rejected(TooLargeMessage)
    else
      Accepted
  }

  /** The size bound is inclusive: exactly 10 MiB passes, one byte more does not. */
  lemma SizeBoundary(mimeType: string)
    requires mimeType in ValidTypes
    ensures ValidateImageFile(File(mimeType, 10 * 1024 * 1024)) == Accepted
    ensures ValidateImageFile(File(mimeType, 10 * 1024 * 1024 + 1)) == Rejected(TooLargeMessage)
  {
  }

  // ---------------------------------------------------------------- base URL

  const DefaultBaseUrl: string := "http://localhost:8080"

  /** `import.meta.env.VITE_API_URL || 'http://localhost:8080'`: an absent or empty setting falls back. */
  function BaseUrl(env: Option<string>): (url: string)
    ensures env.Some? && env.value != "" ==> url == env.value
    ensures env.None? || env.value == "" ==> url == DefaultBaseUrl
    ensures url != ""
  {
    if env.Some? && Truthy(Str(env.value)) then env.value else DefaultBaseUrl
  }

  // ---------------------------------------------------------------- fetch configuration

  /** The properties an object spread `...v` copies: those of an object, none of `undefined` or `null`. */
  function OwnProperties(v: JsValue): map<string, JsValue> {
    if v.Obj? then v.fields else map[]
  }

  /** `v.key` for an options object, `undefined` when absent. */
  function Field(options: map<string, JsValue>, key: string): JsValue {
    if key in options then options[key] else Undefined
  }

  const JsonHeaders: map<string, JsValue> := map["Content-Type" := Str("application/json")]

  /**
    `{ headers: { 'Content-Type': 'application/json', ...options.headers }, ...options }`.
    A later spread overwrites the keys it shares with what came before.
   */
  function RequestConfig(options: map<string, JsValue>): (config: map<string, JsValue>)
    ensures config.Keys == options.Keys + {"headers"}
    ensures forall k :: k in options ==> config[k] == options[k]
    ensures "headers" !in options ==> config["headers"] == Obj(JsonHeaders)
  {
    var headers := JsonHeaders + OwnProperties(Field(options, "headers"));
    assert "headers" !in options ==> headers == JsonHeaders;
    map["headers" := Obj(headers)] + options
  }

  /**
    Because `...options` comes last, caller headers replace the merged object
    wholesale: the JSON content type is sent only when the caller passes no
    headers or names it again.
   */
  lemma CallerHeadersReplaceDefaults(options: map<string, JsValue>)
    ensures var h := RequestConfig(options)["headers"];
      (h.Obj? && "Content-Type" in h.fields && h.fields["Content-Type"] == Str("application/json"))
      <==>
      ("headers" !in options
       || (options["headers"].Obj?
           && "Content-Type" in options["headers"].fields
           && options["headers"].fields["Content-Type"] == Str("application/json")))
  {
  }

  // ---------------------------------------------------------------- JSON bodies

  /** A lower-case hexadecimal digit, as `JSON.stringify` writes them. */
  function HexDigit(d: nat): (h: char)
    requires d < 16
    ensures d < 10 ==> '0' <= h <= '9'
    ensures d >= 10 ==> 'a' <= h <= 'f'
    ensures IsHexDigit(h) && HexValue(h) == d
  {
    if d < 10 then ('0' as int + d) as char else ('a' as int + d - 10) as char
  }

  predicate IsHexDigit(c: char) {
    '0' <= c <= '9' || 'a' <= c <= 'f' || 'A' <= c <= 'F'
  }

  function HexValue(c: char): (d: nat)
    requires IsHexDigit(c)
    ensures d < 16
  {
    if '0' <= c <= '9' then c as int - '0' as int
    else if 'a' <= c <= 'f' then c as int - 'a' as int + 10
    else c as int - 'A' as int + 10
  }

  /**
    How `JSON.stringify` writes one character inside a string literal: as
    itself when it needs no escape, with the two-character escape for the
    quote, the backslash and the five control characters that have one, and
    otherwise as `\u00` and two lower-case hex digits.
   */
  function JsonEscapeChar(c: char): (r: string)
    ensures NeedsNoEscape(c) ==> r == [c]
    ensures !NeedsNoEscape(c) ==> |r| >= 2 && r[0] == '\\'
    ensures c == '"' ==> r == "\\\""
    ensures c == '\\' ==> r == "\\\\"
    ensures c as int == 8 ==> r == "\\b"
    ensures c == '\t' ==> r == "\\t"
    ensures c == '\n' ==> r == "\\n"
    ensures c as int == 12 ==> r == "\\f"
    ensures c == '\r' ==> r == "\\r"
    ensures c as int < 0x20 && c as int != 8 && c != '\t' && c != '\n' && c as int != 12 && c != '\r'
            ==> r == "\\u00" + [HexDigit(c as int / 16), HexDigit(c as int % 16)]
  {
    if c == '"' then "\\\""
    else if c == '\\' then "\\\\"
    else if c as int == 8 then "\\b"
    else if c == '\t' then "\\t"
    else if c == '\n' then "\\n"
    else if c as int == 12 then "\\f"
    else if c == '\r' then "\\r"
    else if c as int < 0x20 then "\\u00" + [HexDigit(c as int / 16), HexDigit(c as int % 16)]
    else [c]
  }

  predicate NeedsNoEscape(c: char) {
    c != '"' && c != '\\' && c as int >= 0x20
  }

  /** `f` applied to each character of `s`, the results joined in order. */
  function ConcatMap(f: char -> string, s: string): string {
    if s == [] then [] else f(s[0]) + ConcatMap(f, s[1..])
  }

  lemma {:induction false} ConcatMapAppend(f: char -> string, a: string, b: string)
    ensures ConcatMap(f, a + b) == ConcatMap(f, a) + ConcatMap(f, b)
  {
    if a == [] {
      assert a + b == b;
    } else {
      var x, y, z := f(a[0]), ConcatMap(f, a[1..]), ConcatMap(f, b);
      calc {
        ConcatMap(f, a + b);
      == { assert (a + b)[0] == a[0] && (a + b)[1..] == a[1..] + b; }
        x + ConcatMap(f, a[1..] + b);
      == { ConcatMapAppend(f, a[1..], b); }
        x + (y + z);
      ==
        (x + y) + z;
      }
    }
  }

  lemma {:induction false} ConcatMapLength(f: char -> string, s: string)
    requires forall c :: |f(c)| >= 1
    ensures |ConcatMap(f, s)| >= |s|
  {
    if s != [] {
      ConcatMapLength(f, s[1..]);
    }
  }

  /** The characters of a string literal, each escaped as `JsonEscapeChar` says, in order. */
  function JsonEscape(s: string): (r: string)
    ensures |r| >= |s|
    ensures r == [] <==> s == []
    ensures s != [] && !NeedsNoEscape(s[0]) ==> r[0] == '\\'
  {
    ConcatMapLength(JsonEscapeChar, s);
    ConcatMap(JsonEscapeChar, s)
  }

  /** Escaping text piece by piece is escaping the whole, in order. */
  lemma JsonEscapeAppend(a: string, b: string)
    ensures JsonEscape(a + b) == JsonEscape(a) + JsonEscape(b)
  {
    ConcatMapAppend(JsonEscapeChar, a, b);
  }

  /** Reading back what `JsonEscape` wrote gives the original text: the escaping is valid JSON and loses nothing. */
  lemma {:induction false} EscapeRoundTrip(s: string)
    ensures JsonUnescape(JsonEscape(s)) == Some(s)
  {
    if s != [] {
      EscapeRoundTrip(s[1..]);
      EscapedCharDecodes(s[0], JsonEscape(s[1..]));
      assert s == [s[0]] + s[1..];
    }
  }

  // ------------------------------------------- reading a JSON string back

  /** The character a two-character escape `\e` stands for in JSON. */
  function ShortEscape(e: char): Option<char> {
    if e == '"' then Some('"')
    else if e == '\\' then Some('\\')
    else if e == '/' then Some('/')
    else if e == 'b' then Some(8 as char)
    else if e == 'f' then Some(12 as char)
    else if e == 'n' then Some('\n')
    else if e == 'r' then Some('\r')
    else if e == 't' then Some('\t')
    else None
  }

  function Prepend(c: char, rest: Option<string>): Option<string> {
    match rest
    case None => None
    case Some(t) => Some([c] + t)
  }

  /**
    The text a JSON string literal's contents denote, or None when they are
    not valid JSON: a bare quote or control character, a lone backslash, an
    unknown escape, or a `\u` escape that does not name a character.
   */
  function JsonUnescape(t: string): Option<string>
    decreases |t|
  {
    if t == [] then Some([])
    else if t[0] == '"' || t[0] as int < 0x20 then None
    else if t[0] != '\\' then Prepend(t[0], JsonUnescape(t[1..]))
    else if |t| < 2 then None
    else if ShortEscape(t[1]).Some? then Prepend(ShortEscape(t[1]).value, JsonUnescape(t[2..]))
    else if t[1] != 'u' || |t| < 6 then None
    else if !(IsHexDigit(t[2]) && IsHexDigit(t[3]) && IsHexDigit(t[4]) && IsHexDigit(t[5])) then None
    else
      var v := ((HexValue(t[2]) * 16 + HexValue(t[3])) * 16 + HexValue(t[4])) * 16 + HexValue(t[5]);
      if 0xD800 <= v < 0xE000 then None
      else Prepend(v as char, JsonUnescape(t[6..]))
  }

  /** Reading back the escape of `c`, followed by any text, gives `c` first. */
  lemma EscapedCharDecodes(c: char, rest: string)
    ensures JsonUnescape(JsonEscapeChar(c) + rest) == Prepend(c, JsonUnescape(rest))
  {
    var t := JsonEscapeChar(c) + rest;
    if NeedsNoEscape(c) {
      assert t[0] == c && t[1..] == rest;
    } else if c as int >= 0x20 || c as int == 8 || c == '\t' || c == '\n' || c as int == 12 || c == '\r' {
      assert t[0] == '\\' && t[2..] == rest;
      assert ShortEscape(t[1]) == Some(c);
    } else {
      ControlCharDecodes(c, rest);
    }
  }

  lemma ControlCharDecodes(c: char, rest: string)
    requires c as int < 0x20 && c as int != 8 && c != '\t' && c != '\n' && c as int != 12 && c != '\r'
    ensures JsonUnescape(JsonEscapeChar(c) + rest) == Prepend(c, JsonUnescape(rest))
  {
    var hi, lo := c as int / 16, c as int % 16;
    var t := JsonEscapeChar(c) + rest;
    assert t == ['\\', 'u', '0', '0', HexDigit(hi), HexDigit(lo)] + rest;
    assert HexValue(HexDigit(hi)) == hi && HexValue(HexDigit(lo)) == lo;
    assert ShortEscape(t[1]) == None;
    assert t[6..] == rest;
  }

  /** Text made only of characters JSON leaves alone is written unchanged. */
  lemma {:induction false} EscapeIsIdentity(s: string)
    requires forall i :: 0 <= i < |s| ==> NeedsNoEscape(s[i])
    ensures JsonEscape(s) == s
  {
    if s != [] {
      EscapeIsIdentity(s[1..]);
      assert s == [s[0]] + s[1..];
    }
  }

  predicate IsBase64Char(c: char) {
    'A' <= c <= 'Z' || 'a' <= c <= 'z' || '0' <= c <= '9' || c == '+' || c == '/' || c == '='
  }

  /**
    `JSON.stringify({ image: x })`; a property whose value is `undefined`
    (here `None`) is dropped from the text.
   */
  function ImageBody(image: Option<string>): (body: string)
    ensures image.None? ==> body == "{}"
    ensures image.Some? ==> |body| >= 12 && body[..10] == "{\"image\":\"" && body[|body| - 2..] == "\"}"
                            && body[10..|body| - 2] == JsonEscape(image.value)
  {
    match image
    case None => "{}"
    case Some(s) => "{\"image\":\"" + JsonEscape(s) + "\"}"
  }

  /** A base64 payload travels verbatim between the quotes. */
  lemma Base64BodyVerbatim(payload: string)
    requires forall i :: 0 <= i < |payload| ==> IsBase64Char(payload[i])
    ensures ImageBody(Some(payload)) == "{\"image\":\"" + payload + "\"}"
  {
    EscapeIsIdentity(payload);
  }

  // ---------------------------------------------------------------- responses

  /** What `response.json()` gives: a parsed value, or a rejection with the parser's message. */
  datatype Body = Unparsable(reason: string) | Json(value: JsValue)

  /** How a `fetch` settles: it rejects (no response at all), or it resolves with a response. */
  datatype FetchOutcome =
    | NetworkFailure(message: string)
    | Response(ok: bool, status: nat, body: Body)

  /** How an awaited call ends: with a value, or by throwing an error with a message. */
  datatype Completion = Returned(value: JsValue) | Threw(message: string)

  /** `HTTP error! status: ${response.status}`: the fixed text, then the status, which reads back from its digits. */
  function StatusMessage(status: nat): (m: string)
    ensures |m| > 20 && m[..20] == "HTTP error! status: "
    ensures Digits.AllDigits(m[20..]) && Digits.ValueOf(m[20..]) == status
    ensures m[20] == '0' ==> m == "HTTP error! status: 0"
  {
    var d := Digits.NatToDecimal(status);
    assert ("HTTP error! status: " + d)[20..] == d;
    "HTTP error! status: " + d
  }

  /** The TypeError a browser throws on `x.detail` when `x` is `null` or `undefined`. */
  function NoPropertiesMessage(x: JsValue): string {
    "Cannot read properties of " + ToJsString(x) + " (reading 'detail')"
  }

  /**
    The message thrown for a response that is not ok: `errorData.detail` when
    truthy, else the status text; a body that does not parse counts as `{}`.
   */
  function HttpErrorMessage(body: Body, status: nat): (message: string)
    ensures message == "" ==> body.Json? && body.value.Obj? && "detail" in body.value.fields
                              && body.value.fields["detail"].Arr?
    ensures body.Unparsable? ==> message == StatusMessage(status)
    ensures body.Json? && body.value.Obj? && "detail" in body.value.fields
            && body.value.fields["detail"].Str? && body.value.fields["detail"].s != ""
            ==> message == body.value.fields["detail"].s
    ensures body.Json? && body.value.Obj? && !("detail" in body.value.fields && Truthy(body.value.fields["detail"]))
            ==> message == StatusMessage(status)
    ensures body.Json? && body.value.Obj? && "detail" in body.value.fields && Truthy(body.value.fields["detail"])
            ==> message == ToJsString(body.value.fields["detail"])
    ensures body.Json? && !body.value.Obj? && !body.value.Null? && !body.value.Undefined?
            ==> message == StatusMessage(status)
    ensures body.Json? && (body.value.Null? || body.value.Undefined?) ==> message == NoPropertiesMessage(body.value)
  {
    var errorData := match body
      case Unparsable(_) => Obj(map[])
      case Json(v) => v;
    if errorData.Null? || errorData.Undefined? then
      NoPropertiesMessage(errorData)
    else
      var detail := Get(errorData, "detail");
      if Truthy(detail) then ToJsString(detail) else StatusMessage(status)
  }

  // ---------------------------------------------------------------- the service

  /** One exchange of `request`: the URL and configuration handed to `fetch`, and how the call ended. */
  datatype Exchange = Exchange(url: string, config: map<string, JsValue>, completion: Completion)

  /** `ApiService`: its one field, `baseURL`, is fixed when the shared instance is built. */
  datatype ApiService = ApiService(baseURL: string) {

    /** The instance `api.js` exports, built from the environment setting. */
    static function FromEnv(env: Option<string>): (service: ApiService)
      ensures service.baseURL == BaseUrl(env)
      ensures env.None? ==> service.baseURL == "http://localhost:8080"
    {
      ApiService(BaseUrl(env))
    }

    /**
      `request(endpoint, options)`: the URL is the base URL followed by the
      endpoint; the call returns the parsed body of an ok response and throws
      otherwise (the `catch` only logs and rethrows).
     */
    function Request(endpoint: string, options: map<string, JsValue>, answer: FetchOutcome): (x: Exchange)
      ensures |x.url| == |baseURL| + |endpoint| && x.url[..|baseURL|] == baseURL && x.url[|baseURL|..] == endpoint
      ensures x.config == RequestConfig(options)
      ensures x.completion.Returned? <==> answer.Response? && answer.ok && answer.body.Json?
      ensures x.completion.Returned? ==> x.completion.value == answer.body.value
      ensures answer.NetworkFailure? ==> x.completion == Threw(answer.message)
      ensures answer.Response? && !answer.ok ==> x.completion == Threw(HttpErrorMessage(answer.body, answer.status))
      ensures answer.Response? && answer.ok && answer.body.Unparsable? ==> x.completion == Threw(answer.body.reason)
    {
      var url := baseURL + endpoint;
      var config := RequestConfig(options);
      var completion :=
        match answer
        case NetworkFailure(message) => Threw(message)
        case Response(ok, status, body) =>
          if !ok then Threw(HttpErrorMessage(body, status))
          else match body
            case Unparsable(reason) => Threw(reason)
            case Json(v) => Returned(v);
      Exchange(url, config, completion)
    }

    /** `healthCheck`: a GET of `/health` with the JSON content type. */
    function HealthCheck(answer: FetchOutcome): (x: Exchange)
      ensures x.url == baseURL + "/health"
      ensures x.config == map["headers" := Obj(JsonHeaders)]
      ensures x.completion.Returned? <==> answer.Response? && answer.ok && answer.body.Json?
      ensures x.completion.Returned? ==> x.completion.value == answer.body.value
      ensures answer.NetworkFailure? ==> x.completion == Threw(answer.message)
      ensures answer.Response? && !answer.ok ==> x.completion == Threw(HttpErrorMessage(answer.body, answer.status))
      ensures answer.Response? && answer.ok && answer.body.Unparsable? ==> x.completion == Threw(answer.body.reason)
    {
      Request("/health", map[], answer)
    }

    /**
      `predictImage`: a POST to `/predict` of a JSON object whose only field
      `image` holds the argument, with the JSON content type (it passes no
      headers).
     */
    function PredictImage(base64Image: string, answer: FetchOutcome): (x: Exchange)
      ensures x.url == baseURL + "/predict"
      ensures x.config == map["headers" := Obj(JsonHeaders),
                              "method" := Str("POST"),
                              "body" := Str(ImageBody(Some(base64Image)))]
      ensures x.completion.Returned? <==> answer.Response? && answer.ok && answer.body.Json?
      ensures x.completion.Returned? ==> x.completion.value == answer.body.value
      ensures answer.NetworkFailure? ==> x.completion == Threw(answer.message)
      ensures answer.Response? && !answer.ok ==> x.completion == Threw(HttpErrorMessage(answer.body, answer.status))
      ensures answer.Response? && answer.ok && answer.body.Unparsable? ==> x.completion == Threw(answer.body.reason)
    {
      Request("/predict", map["method" := Str("POST"), "body" := Str(ImageBody(Some(base64Image)))], answer)
    }

    /** `startTraining`: a POST of `/train` without a body. */
    function StartTraining(answer: FetchOutcome): (x: Exchange)
      ensures x.url == baseURL + "/train"
      ensures x.config == map["headers" := Obj(JsonHeaders), "method" := Str("POST")]
      ensures x.completion.Returned? <==> answer.Response? && answer.ok && answer.body.Json?
      ensures x.completion.Returned? ==> x.completion.value == answer.body.value
      ensures answer.NetworkFailure? ==> x.completion == Threw(answer.message)
      ensures answer.Response? && !answer.ok ==> x.completion == Threw(HttpErrorMessage(answer.body, answer.status))
      ensures answer.Response? && answer.ok && answer.body.Unparsable? ==> x.completion == Threw(answer.body.reason)
    {
      Request("/train", map["method" := Str("POST")], answer)
    }

    /** `getModelInfo`: a GET of `/model-info`. */
    function GetModelInfo(answer: FetchOutcome): (x: Exchange)
      ensures x.url == baseURL + "/model-info"
      ensures x.config == map["headers" := Obj(JsonHeaders)]
      ensures x.completion.Returned? <==> answer.Response? && answer.ok && answer.body.Json?
      ensures x.completion.Returned? ==> x.completion.value == answer.body.value
      ensures answer.NetworkFailure? ==> x.completion == Threw(answer.message)
      ensures answer.Response? && !answer.ok ==> x.completion == Threw(HttpErrorMessage(answer.body, answer.status))
      ensures answer.Response? && answer.ok && answer.body.Unparsable? ==> x.completion == Threw(answer.body.reason)
    {
      Request("/model-info", map[], answer)
    }
  }

  /** The server's own message wins over the status text, as for a 500 carrying a `detail`. */
  lemma ServerDetailReported(service: ApiService)
    ensures service.PredictImage("x", Response(false, 500, Json(Obj(map["detail" := Str("model unavailable")])))).completion
            == Threw("model unavailable")
    ensures service.PredictImage("x", Response(false, 500, Unparsable("Unexpected token"))).completion
            == Threw("HTTP error! status: 500")
  {
    StatusFiveHundred();
  }

  /**
    A validation failure whose `detail` is a list, as FastAPI sends with a
    422: the list is truthy, so its string form is thrown, which is empty for
    an empty list and "[object Object]" per entry otherwise.
   */
  lemma ListDetailMessages()
    ensures HttpErrorMessage(Json(Obj(map["detail" := Arr([])])), 422) == ""
    ensures HttpErrorMessage(Json(Obj(map["detail" := Arr([Obj(map["msg" := Str("x")])])])), 422)
            == "[object Object]"
    ensures HttpErrorMessage(Json(Obj(map["detail" := Arr([Null, Str("a")])])), 422) == ",a"
  {
    ArrayTexts();
    var d0, d1, d2 := Arr([]), Arr([Obj(map["msg" := Str("x")])]), Arr([Null, Str("a")]);
    assert Truthy(d0) && Truthy(d1) && Truthy(d2);
    assert map["detail" := d0]["detail"] == d0;
    assert map["detail" := d1]["detail"] == d1;
    assert map["detail" := d2]["detail"] == d2;
  }

  /** The status text of a 500 response. */
  lemma StatusFiveHundred()
    ensures StatusMessage(500) == "HTTP error! status: 500"
  {
    assert Digits.NatToDecimal(500) == Digits.NatToDecimal(50) + ['0'];
    assert Digits.NatToDecimal(50) == Digits.NatToDecimal(5) + ['0'];
  }
}
