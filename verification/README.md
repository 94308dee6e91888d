# KidneyAI upload-and-classify core, in Dafny

This project models the core of the KidneyAI kidney CT classification system.

The frontend is a React page. It checks the backend's health when it mounts. It lets the user drop or choose a JPEG or PNG scan of at most 10 MiB. It reads the scan as a base64 data URL and POSTs the payload to `/predict`. It then shows either the prediction, on a green "normal" or a red "tumor" branch, or an error message.

The project also models the pieces around that exchange:

- the shared API client, with its header merging, its error messages and its four endpoint wrappers;
- the upload component and its drag state;
- the result view;
- the responsive-layout hook;
- the backend's launcher, which checks the `PORT` variable the way Python's `int` does and builds the uvicorn command.

Modules, one per source file plus two helpers:

| module | file | models |
|---|---|---|
| `Digits` | `digits.dfy` | decimal digit strings: `${status}`, the port literal "8080" and the value a digit string denotes |
| `Js` | `js.dfy` | JSON-shaped JavaScript values, truthiness, `String(v)`, `toLowerCase`, `split` |
| `Api` | `api.dfy` | `Frontend/src/services/api.js` |
| `ImageUpload` | `image_upload.dfy` | `Frontend/src/components/ImageUpload.jsx` |
| `PredictionResult` | `prediction_result.dfy` | `Frontend/src/components/PredictionResult.jsx` and the identical result panel inlined in `App.jsx` |
| `App` | `app.dfy` | `Frontend/src/App.jsx` |
| `Responsive` | `responsive.dfy` | `Frontend/src/hooks/useResponsive.js` |
| `Start` | `start.dfy` | `Backend/start.py` |

The page, the upload component and the responsive hook each hold state that their handlers update. Each is a Dafny `class` whose methods have `modifies` frames. Every handler of the page, the health probe and the drag handler included, keeps its invariant `App.AppState.Valid`. The responsive hook's `Consistent` (the device type agrees with the width) holds after every resize. At the start it holds exactly when the width is a desktop one (1024 or more), which includes the 1200-pixel default used when there is no window. The upload component holds a single flag and has no invariant. `App.AppState.SettleUpload` performs the steps of `handleImageUpload` one assignment at a time. It is proved equal to the pure function `App.Settle`, and the properties of the upload are proved about `Settle`.

Everything asynchronous or external is a parameter:

- what `fetch` answered (`Api.FetchOutcome`: no response, or a status, an ok flag and a body that does or does not parse);
- how the `FileReader` ended (`App.ReadOutcome`);
- the object URL the browser made;
- the value of `VITE_API_URL` or `PORT`.

### How failures and overlapping uploads are handled

- **Server message on a failed upload.** The page's upload handler throws on the status alone (`App.jsx:81-83`). So a 500 response carrying `{"detail": "model unavailable"}` shows "HTTP error! status: 500" (`App.ServerErrorShowsStatus`). Only `ApiService.request` reports the `detail` (`api.js:23-25`, `Api.ServerDetailReported`), and the page does not call it.
- **Network failure.** When `fetch` rejects, the handler shows the rejection's own message if it is non-empty (`App.jsx:87-88`). It shows "Failed to classify image. Please try again." only when that message is empty (`App.ErrorText`, `App.Settle`).
- **One upload at a time.** While `isLoading` holds, the file input and its button are disabled and the drop zone ignores pointer events (`App.jsx:206`, `218`, `264`). So no upload starts while another is in flight, and the upload methods require `!isLoading`.

### Observations the proofs make explicit

These are notes, not defects that need correcting.

- **Size limit.** The size limit is inclusive: a file of exactly 10 MiB passes, although the message reads "less than 10MB" (`Api.SizeBoundary`).
- **Header merging.** `...options` comes after the merged `headers` object. So a caller who passes `headers` replaces the JSON content type entirely (`Api.CallerHeadersReplaceDefaults`).
- **Responsive hook start-up.** The hook starts as "desktop" whatever the width. Until its effect runs, a narrow window reports both `isDesktop` and `isSmallScreen` (`Responsive.FirstRenderMayDisagree`).
- **Port value.** The launcher keeps a valid `PORT` value exactly as written, such as `" 0080 "` or `"+8_080"`. It does not pass on the number it parsed (`Start.UnusualPortsKept`).
- **Zero processing time.** A processing time of `0` is shown as "N/A", since `0` is falsy (`PredictionResult.ZeroTimeShownMissing`).

## Model

| member | source | states |
|---|---|---|
| `Digits.NatToDecimal` | Frontend/src/services/api.js:25 | the text of `${response.status}`: non-empty, digits only, no leading zero, and it denotes the status |
| `Digits.EightyEighty` | Backend/start.py:11 | the default port 8080 is written "8080" |
| `Js.Get` | Frontend/src/services/api.js:25 | reading a property gives its value when the object has it, `undefined` otherwise |
| `Js.Normalize` | Frontend/src/components/PredictionResult.jsx:82 | a decimal number with its trailing fractional zeros removed still denotes the same value |
| `Js.NumberToString` | Frontend/src/components/PredictionResult.jsx:82 | a number in a template literal: never empty, zero is "0", an integer is its sign and its digits |
| `Js.NumberToStringShape` | Frontend/src/components/PredictionResult.jsx:82 | `String(n)`: a minus sign exactly for a negative number; then the digits of the integer, or, when significant fractional digits remain, the positional form with exactly that many digits after the point, a single "0" at most before it, and no trailing zero |
| `Js.NumberToStringSign` | Frontend/src/components/PredictionResult.jsx:82 | the text starts with a minus sign exactly for a negative number, and what follows is the unsigned rendering of the normalised digits |
| `Js.PositionalShape` | Frontend/src/components/PredictionResult.jsx:82 | the digits with the point `scale` places from the right denote the units once the point is removed, and end in zero only when the units do |
| `Js.ToJsString` | Frontend/src/services/api.js:25 | `String(v)`: only the empty string and an array can give the empty text |
| `Js.ArrayTexts` | Frontend/src/services/api.js:25 | an array is written as its elements joined by commas, with `null` as nothing: `[]` gives "", one object gives "[object Object]", `[null, "a"]` gives ",a" |
| `Js.ToLowerCase` | Frontend/src/components/PredictionResult.jsx:2 | `toLowerCase` keeps the length and lowers each letter in place |
| `Js.Split` | Frontend/src/App.jsx:77 | `split(',')` gives at least one part, no part holds a comma, and joining the parts with commas gives back the input |
| `Js.SplitWithout` | Frontend/src/App.jsx:77 | a string without the separator splits into itself alone |
| `Js.SplitAfterHead` | Frontend/src/App.jsx:77 | the part before the first separator comes first, then the split of the rest |
| `Api.ValidateImageFile` | Frontend/src/services/api.js:73-86 | accepted exactly when the type is JPEG, JPG or PNG and the size is at most 10 MiB; a bad type gives the type message, whatever the size; an allowed type that is too large gives the size message |
| `Api.SizeBoundary` | Frontend/src/services/api.js:75-83 | exactly 10 MiB passes and one byte more is rejected with the size message |
| `Api.BaseUrl` | Frontend/src/services/api.js:3 | `VITE_API_URL` is used when it is set and non-empty, `http://localhost:8080` otherwise |
| `Api.RequestConfig` | Frontend/src/services/api.js:12-18 | the configuration has every caller option unchanged plus `headers`, which is the JSON content type when the caller gives no headers |
| `Api.CallerHeadersReplaceDefaults` | Frontend/src/services/api.js:12-18 | the JSON content type is sent if and only if the caller passes no headers or names that content type itself |
| `Api.EscapeIsIdentity` | Frontend/src/services/api.js:44-46 | `JSON.stringify` writes text without quotes, backslashes or control characters unchanged |
| `Api.HexDigit` | Frontend/src/services/api.js:44-46 | the hex digits `JSON.stringify` writes are lower-case: `0`-`9` below ten, `a`-`f` from ten, and each reads back as its value |
| `Api.JsonEscapeChar` | Frontend/src/services/api.js:44-46 | `JSON.stringify` writes a character that needs no escape as itself. It writes `\"`, `\\`, `\b`, `\t`, `\n`, `\f` and `\r` for the quote, the backslash and those five control characters. Every other control character becomes `\u00` and two lower-case hex digits |
| `Api.JsonEscape` | Frontend/src/services/api.js:44-46 | the escaped text is never shorter than the input, is empty only for empty input, and starts with a backslash when the first character needs escaping |
| `Api.EscapedCharDecodes` | Frontend/src/services/api.js:44-46 | the JSON string reader `Api.JsonUnescape` turns the escape of any character, followed by any text, back into that character followed by the reading of the text |
| `Api.ControlCharDecodes` | Frontend/src/services/api.js:44-46 | the `\u00xx` escape of a control character without a short escape, followed by any text, reads back as that character followed by the reading of the text |
| `Api.EscapeRoundTrip` | Frontend/src/services/api.js:44-46 | reading back `JsonEscape(s)` as JSON string contents gives exactly `s`: the escaping is valid JSON, loses nothing and keeps the order |
| `Api.JsonEscapeAppend` | Frontend/src/services/api.js:44-46 | escaping is done character by character in order: `JsonEscape(a + b) == JsonEscape(a) + JsonEscape(b)` |
| `Api.ImageBody` | Frontend/src/services/api.js:44-46 | `JSON.stringify({image: x})` is `{"image":"` then the escaped text then `"}`, and `{}` when `x` is `undefined` |
| `Api.Base64BodyVerbatim` | Frontend/src/services/api.js:44-46 | the request body is `{"image":"…"}` with the base64 payload verbatim |
| `Api.HttpErrorMessage` | Frontend/src/services/api.js:23-25 | the error for a failed response is empty only when `detail` is an array, such as the empty list. A truthy `detail` of any type gives its string conversion. Otherwise the status text is used: when there is no or a falsy `detail`, when the JSON body is not an object, and when the body does not parse. A `null` body gives the `TypeError` of reading its `detail` |
| `Api.ListDetailMessages` | Frontend/src/services/api.js:23-25 | a list `detail`, as a 422 validation failure carries it, is truthy and is thrown as its string form: `[]` gives the empty message, one object gives "[object Object]", and `[null, "a"]` gives ",a" |
| `Api.StatusMessage` | Frontend/src/services/api.js:25 | `HTTP error! status: ${status}`: the fixed text followed by digits that denote the status, with no leading zero |
| `Api.StatusFiveHundred` | Frontend/src/services/api.js:25 | a 500 status gives "HTTP error! status: 500" |
| `Api.ApiService.FromEnv` | Frontend/src/services/api.js:5-8 | the exported service's base URL is the configured one |
| `Api.ApiService.Request` | Frontend/src/services/api.js:10-33 | the URL is the base URL followed by the endpoint, and the configuration is the merged one; the call returns the body exactly when the response is ok and parses; otherwise it throws the network error, the HTTP error message or the parse error |
| `Api.ApiService.HealthCheck` | Frontend/src/services/api.js:36-38 | a GET of the base URL's `/health` with only the JSON header; it returns the parsed body exactly when the response is ok and parses, throws the fetch error's message on a network failure, `HttpErrorMessage` of the body and status on a non-ok response, and the parse error's message on an unparsable ok body |
| `Api.ApiService.PredictImage` | Frontend/src/services/api.js:41-48 | a POST to `/predict` of the image body, with the JSON header and nothing else; it returns the parsed body exactly when the response is ok and parses, throws the fetch error's message on a network failure, `HttpErrorMessage` of the body and status on a non-ok response, and the parse error's message on an unparsable ok body |
| `Api.ApiService.StartTraining` | Frontend/src/services/api.js:51-55 | a POST to `/train` with the JSON header and no body; it returns the parsed body exactly when the response is ok and parses, throws the fetch error's message on a network failure, `HttpErrorMessage` of the body and status on a non-ok response, and the parse error's message on an unparsable ok body |
| `Api.ApiService.GetModelInfo` | Frontend/src/services/api.js:58-60 | a GET of `/model-info` with only the JSON header; it returns the parsed body exactly when the response is ok and parses, throws the fetch error's message on a network failure, `HttpErrorMessage` of the body and status on a non-ok response, and the parse error's message on an unparsable ok body |
| `Api.ServerDetailReported` | Frontend/src/services/api.js:23-25 | a 500 with `detail` "model unavailable" throws that text; with a body that does not parse, it throws "HTTP error! status: 500" |
| `ImageUpload.DragActiveAfter` | Frontend/src/components/ImageUpload.jsx:7-15 | dragenter and dragover activate the zone, dragleave deactivates it, and other events keep it as it was |
| `ImageUpload.HandleFile` | Frontend/src/components/ImageUpload.jsx:34-50 | the file reaches `onImageUpload` exactly when `validateImageFile` accepts it; otherwise the alert carries the message that function throws |
| `ImageUpload.FirstFile` | Frontend/src/components/ImageUpload.jsx:22-24 | only the first file of a non-empty list is handled, and an empty list does nothing |
| `ImageUpload.HandleChange` | Frontend/src/components/ImageUpload.jsx:27-32 | choosing files has exactly the effect of `FirstFile`: nothing for an empty list; otherwise the first file is uploaded when it is an acceptable image, and the validation message is alerted when it is not |
| `ImageUpload.UploadArea.constructor` | Frontend/src/components/ImageUpload.jsx:4 | the zone starts inactive |
| `ImageUpload.UploadArea.HandleDrag` | Frontend/src/components/ImageUpload.jsx:7-15 | the new drag state is `DragActiveAfter` of the old one |
| `ImageUpload.UploadArea.HandleDrop` | Frontend/src/components/ImageUpload.jsx:17-25 | a drop always deactivates the zone and hands on the first file, if there is one |
| `PredictionResult.Decode` | Frontend/src/components/PredictionResult.jsx:2 | the view can render a body exactly when it is an object whose `prediction` is a string; the category is that string, and the processing time is the body's `processing_time` property, `undefined` when absent |
| `PredictionResult.IsNormal` | Frontend/src/components/PredictionResult.jsx:2 | only a six-character category can be normal; `IsNormalIffCaseVariant` gives the exact set |
| `PredictionResult.IsNormalIffCaseVariant` | Frontend/src/components/PredictionResult.jsx:2 | a category is normal if and only if it is "normal" with each letter in either case |
| `PredictionResult.LabelExamples` | Frontend/src/components/PredictionResult.jsx:2 | "Normal", "NORMAL" and "normal" are normal; "Unknown", "Tumor" and "normal " are not |
| `PredictionResult.NormalBodyRendersNormal` | Frontend/src/components/PredictionResult.jsx:2-41 | the body `{"prediction":"Normal"}` decodes with no processing time and renders the normal message |
| `PredictionResult.ResultColor` | Frontend/src/components/PredictionResult.jsx:4-6 | green exactly for a normal category, red for every other one |
| `PredictionResult.ResultMessage` | Frontend/src/components/PredictionResult.jsx:24-38 | the normal texts exactly for a normal category, the tumor texts for every other one |
| `PredictionResult.ProcessingTimeText` | Frontend/src/components/PredictionResult.jsx:82 | a truthy time is shown as its text followed by "s"; "N/A" is shown exactly when the time is falsy |
| `PredictionResult.ZeroTimeShownMissing` | Frontend/src/components/PredictionResult.jsx:82 | a time of 0 or 0.00 shows "N/A", as a missing time does |
| `PredictionResult.ProcessingTimeExamples` | Frontend/src/components/PredictionResult.jsx:82 | 0.37 shows "0.37s" and 1.20 shows "1.2s" |
| `PredictionResult.Render` | Frontend/src/components/PredictionResult.jsx:40-57 | a normal category is shown green with the normal texts, and every other category red with the tumor texts; the classification line shows the category as received; the time line is `ProcessingTimeText` of the time |
| `App.HealthStatus` | Frontend/src/App.jsx:22-34 | connected exactly when the probe resolved with an ok response, disconnected otherwise, never left checking |
| `App.ErrorText` | Frontend/src/App.jsx:88 | the shown error is never empty: the thrown message when that is non-empty, and exactly the fallback text when it is empty |
| `App.PayloadOf` | Frontend/src/App.jsx:77 | there is no payload exactly when the data URL has no comma, and a payload holds no comma |
| `App.PayloadBetweenCommas` | Frontend/src/App.jsx:77 | the payload is the text between the first comma and the next comma or the end |
| `App.DataUrlPayload` | Frontend/src/App.jsx:67-77 | for a base64 data URL, the payload sent is the base64 text |
| `App.PredictRequest` | Frontend/src/App.jsx:70-79 | the upload is sent to the base URL's `/predict` with exactly three settings: method POST, the JSON content type as the only header, and the body built from the payload |
| `App.Settle` | Frontend/src/App.jsx:60-93 | a request is sent exactly when the file is acceptable and was read. There is no error exactly when the response is ok and parses, and then the prediction is the body. A rejected file shows its validation message, a failed read the fallback text, and a failed response its status text. A network failure or an unparsable ok body shows its own message, or the fallback text when that is empty. An error leaves no prediction |
| `App.PanelsFor` | Frontend/src/App.jsx:278-458 | spinner, result and placeholder are mutually exclusive and something is always shown; the spinner shows exactly while loading; the result exactly for a truthy prediction when not loading; the placeholder exactly for a falsy prediction when not loading and without a non-empty error; the error box exactly for a non-empty error |
| `App.SettledPanels` | Frontend/src/App.jsx:86-91 | after an upload, the error box alone shows exactly when there is an error; otherwise the result shows for a truthy body and the placeholder for a falsy one |
| `App.NormalResponseShowsResult` | Frontend/src/App.jsx:85-86 | an ok `{"prediction":"Normal"}` response ends with that body as the prediction and only the result panel shown |
| `App.ServerErrorShowsStatus` | Frontend/src/App.jsx:81-83 | a 500 carrying `detail` still shows "HTTP error! status: 500" |
| `App.AppState.constructor` | Frontend/src/App.jsx:6-11 | no prediction, not loading, no error, no image, drag inactive, status checking |
| `App.AppState.Visible` | Frontend/src/App.jsx:278-458 | the spinner shows exactly while loading, and the result exactly for a truthy prediction when not loading; in a valid state the placeholder shows exactly for a falsy prediction with no error when not loading, the error box exactly when there is an error, and exactly one of the four parts is on the page |
| `App.AppState.CheckApiHealth` | Frontend/src/App.jsx:22-34 | probes the base URL's `/health` and sets only `apiStatus`, to `HealthStatus` of the outcome; keeps `Valid` |
| `App.AppState.BeginUpload` | Frontend/src/App.jsx:61-63 | loading starts with error and prediction cleared, so only the spinner shows |
| `App.AppState.SettleUpload` | Frontend/src/App.jsx:65-92 | the new prediction, error, request sent and image are those `Settle` gives; loading ends and the invariant holds |
| `App.AppState.HandleImageUpload` | Frontend/src/App.jsx:60-93 | the whole upload ends in the state `Settle` describes, with the invariant kept |
| `App.AppState.HandleReset` | Frontend/src/App.jsx:126-130 | clears the prediction, the error and the image; when not loading, only the placeholder shows |
| `App.AppState.HandleDrag` | Frontend/src/App.jsx:95-103 | the page's drop zone follows `DragActiveAfter`, the same rule as the component's; keeps `Valid` |
| `App.AppState.HandleDrop` | Frontend/src/App.jsx:105-113 | a drop deactivates the zone; an empty drop changes nothing else; otherwise the first file is uploaded as `Settle` describes |
| `App.AppState.HandleChange` | Frontend/src/App.jsx:115-120 | an empty choice changes nothing; otherwise the first file is uploaded as `Settle` describes; the drag state is untouched |
| `Responsive.DeviceTypeFor` | Frontend/src/hooks/useResponsive.js:20-26 | mobile exactly below 640, tablet exactly from 640 to below 1024, desktop exactly from 1024 |
| `Responsive.FlagsFor` | Frontend/src/hooks/useResponsive.js:39-42 | each of mobile, tablet and desktop holds exactly when the device type is that one, so exactly one holds; small screen holds exactly below 1024 |
| `Responsive.SmallScreenIsNotDesktop` | Frontend/src/hooks/useResponsive.js:20-42 | once the device type follows the width, small screen means not desktop |
| `Responsive.FirstRenderMayDisagree` | Frontend/src/hooks/useResponsive.js:10-42 | before the effect runs, an 800-pixel window reports both desktop and small screen |
| `Responsive.Viewport.constructor` | Frontend/src/hooks/useResponsive.js:5-10 | the size is the window's, or 1200 by 800 without a window; the device type starts as desktop, so the state is consistent exactly when the width is 1024 or more |
| `Responsive.Viewport.HandleResize` | Frontend/src/hooks/useResponsive.js:13-27 | stores the new size and the device type for the new width, so the state becomes consistent |
| `Responsive.Viewport.CurrentFlags` | Frontend/src/hooks/useResponsive.js:39-50 | the flags are those of the stored device type and width; in a consistent state, small screen means not desktop |
| `Start.TrimStartShape` | Backend/start.py:15 | `int` skips leading white space: what remains is a suffix that does not start with white space, and everything dropped is white space |
| `Start.TrimEndShape` | Backend/start.py:15 | `int` skips trailing white space, stated in the same way for the end |
| `Start.TrimAround` | Backend/start.py:15 | white space around a text is removed, and nothing of the text itself |
| `Start.DropUnderscores` | Backend/start.py:15 | removing the digit-group underscores leaves only digits, never more of them, and keeps a leading digit in front |
| `Start.DropUnderscoresAppend` | Backend/start.py:15 | removing underscores from a concatenation is removing them from each piece, in order |
| `Start.DropUnderscoresJoin` | Backend/start.py:15 | the digits of two groups joined by an underscore are the first group's digits followed by the second's |
| `Start.DropUnderscoresOfDigits` | Backend/start.py:15 | digits without underscores are left as they are |
| `Start.ParseSignedWritten` | Backend/start.py:15 | a sign followed by digit groups has the value of the digits, negated after a minus sign |
| `Start.ParseWritten` | Backend/start.py:15 | `int` accepts white space, an optional sign, digit groups and white space, and gives the digits' value with the sign applied |
| `Start.ParsePyInt` | Backend/start.py:15 | `int` of a non-empty plain digit string is the value of its digits, leading zeros included; `int` succeeds exactly when the text, stripped of white space, is an optional sign followed by non-empty digit groups, so "80.0", "" and "0x50" raise |
| `Start.ParseRendered` | Backend/start.py:15 | `int` reads a plainly written number back as itself |
| `Start.DefaultPortIsValid` | Backend/start.py:11-20 | "8080" parses to 8080 and lies in range |
| `Start.IsValidPort` | Backend/start.py:15-17 | a plain digit string is a valid port exactly when its value lies in 1..65535 |
| `Start.NormalizePort` | Backend/start.py:11-20 | the port used always parses into 1..65535; a set value is kept exactly when it is valid, and is otherwise replaced by "8080"; an unset one gives "8080" |
| `Start.PortBoundaries` | Backend/start.py:16-17 | a plainly written number is kept exactly when it lies in 1..65535 |
| `Start.LeadingZeros` | Backend/start.py:15 | "0080" is one digit group, with the value 80 |
| `Start.GroupedDigits` | Backend/start.py:15 | "8_080" is two digit groups, with the value 8080 |
| `Start.ParsePadded` | Backend/start.py:15 | `int(" 0080 ")` is 80 |
| `Start.ParseSignedGrouped` | Backend/start.py:15 | `int("+8_080")` is 8080 |
| `Start.UnusualPortsKept` | Backend/start.py:14-20 | " 0080 " and "+8_080" are kept as written |
| `Start.MalformedPortReplaced` | Backend/start.py:14-20 | "80.0" and the empty string make `int` fail, so "8080" is used |
| `Start.OptionNameIsNoPort` | Backend/start.py:27 | "--port" is not an integer |
| `Start.UvicornCommand` | Backend/start.py:23-29 | the command is exactly `uvicorn app:app --host 0.0.0.0 --port <port> --workers 1`, eight arguments; "--port" appears nowhere else unless it is the port |
| `Start.LaunchCommand` | Backend/start.py:9-29 | the launched command is the uvicorn command for the normalised port; it names "--port" once, followed by that port, which is valid |

## Left out

- Rendering is not modelled: markup, icons, CSS classes other than the result colour, and the `onButtonClick` focus of the hidden file input. The panels shown are modelled through `App.PanelsFor`.
- `convertToBase64` (Frontend/src/services/api.js:64-71 and Frontend/src/App.jsx:36-43) is not modelled as code. The `FileReader` is browser I/O, so its outcome is the `App.ReadOutcome` parameter.
- `App.jsx` has its own copy of `validateImageFile` (Frontend/src/App.jsx:45-58). It has the same statements as the one in `api.js` and differs only in indentation and the `export` keyword, so `Api.ValidateImageFile` stands for both.
- `console.error` logging, the launcher's `print` lines and `subprocess.run` with its exit status are not modelled. They are output and process control. `Start.LaunchCommand` returns the command instead of running it.
- The resize listener's registration and removal are not modelled. Each resize is one call of `Responsive.Viewport.HandleResize`.
- Interleaved asynchronous handlers are not modelled, for example a reset or a health result arriving while an upload is in flight. The upload runs to completion in one method call.
- App.AppState.HandleImageUpload: requires `!isLoading`. While loading, the page disables the file input and the button and turns off pointer events on the drop zone, so no second upload can start.
- An object URL from `URL.createObjectURL` is never revoked by the source. The model only records which URL is shown.
- A body without a string `prediction` makes the render call `toLowerCase` on something that is not a string. That throw is not modelled: `PredictionResult.Decode` returns `None`, and nothing further is said about React's reaction.
- Js.NumberToString: `Js.Number` is the decimal the response text wrote, not the double `JSON.parse` makes of it. The rounding is not modelled: shortest round-trip printing, the 17-digit limit, and underflow to 0. For example, a fraction with 400 decimal places becomes 0 in the browser and shows "N/A". NaN, Infinity and the exponent forms of very large or very small numbers are not modelled either. The contracts, `Js.NumberToStringShape` included, therefore describe the browser only for numbers of at most 15 significant digits in the positional range (magnitude from 1e-6 up to 1e21).
- Api.JsonEscape: a Dafny string holds Unicode scalar values, so a lone UTF-16 surrogate cannot occur. The `\udxxx` escape that `JSON.stringify` writes for one is not modelled.
- Js.ToLowerCase: lowers the ASCII letters only. Unicode case mapping is not modelled, though it does not change whether a category equals "normal".
- Spreading a string or an array as `options.headers` is not modelled, because no caller does so: `Api.OwnProperties` gives them no properties, where JavaScript would copy their indices.
- `Api.NoPropertiesMessage` is one browser's wording of the `TypeError` that reading `detail` of `null` throws. Other engines word it differently.
- Start.ParsePyInt: treats non-ASCII decimal digits, which Python's `int` accepts, as invalid. It also does not model the 4300-digit conversion limit, which makes `int` fail on absurdly long digit strings.
- `Backend/app.py`, `Backend/test_app.py`, `Frontend/src/components/Header.jsx` and `Frontend/src/components/LoadingSpinner.jsx` are not part of this model. They are the classifier server, its test and two presentational components.
