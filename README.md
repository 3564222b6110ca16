# Upscayl gateway: a Dafny model

The repository is a small FastAPI service that forwards image-upscaling
jobs to the remote Upscayl API. This project models the parts of it that
hold logic:

- **Configuration** (`UpscayleService.__init__`). The API URL falls back to
  `https://api.upscayl.org`. Construction fails when the API key is unset.
- **Starting a task** (`UpscayleService.upscale_images`). It builds the
  multipart file dict keyed `"{idx}.file"`, in upload order. It builds the form payload:
  model, scale and output format copied as given, the face flag as
  `"true"`/`"false"`, and the source URLs JSON-encoded only when there are
  some. It also builds the URL and the API-key header.
- **Normalising a status reply** (`UpscayleService.get_task_status`). When the
  decoded reply has a `data` object, `image_urls` and `task_status` are
  written into it. `image_urls` holds one URL per usable `data.files` entry,
  a direct `url` before `https://upscayl.org/` + `path`. `task_status` is
  `data.status` verbatim, or `""`.
- **The upload route** (`POST /upscale/images`). It refuses more than three
  files, and then the first file whose content type is not JPEG, JPG, PNG or
  WebP. Both checks happen before the service is called. Both routes are
  declared with `response_model=dict`, so a result that is not a JSON object
  is answered with a server error; otherwise the status route passes the
  service's answer through.

Modules: `Wrappers` (Option, Result), `Json` (decoded JSON values; objects
and form payloads are string-keyed dictionaries kept in insertion order, as
Python dicts are), `PyText` (Python's `str()` of integers and JSON values,
`str.lower`, `str.join`), `JsonText` (`json.dumps` of a list of strings and a
reader for it), `Schema` (request parameters, uploads, HTTP errors, remote
replies), `Service` and `Route`.

The remote API is not called. Each network call is modelled by the request
value it would send (URL, headers, body, timeout), and the reply is an input
of type `RemoteReply`: either the request failed, or the body decoded to a
JSON value.

The code does not poll, back off, wait for a deadline or classify statuses.
It does not fold case either. The model follows the code: `task_status` is the remote
`status` value unchanged, and a reply without `data` is returned as it
arrived.

## Model

| member | source | states |
|---|---|---|
| Service.NewService | app/services/upscayle_services.py:10-15 | Construction fails with the `ValueError` message exactly when the key is unset or empty. On success the key is the setting, and the URL is the setting or `https://api.upscayl.org` when unset. |
| Service.FileKeyInjective | app/services/upscayle_services.py:37 | Files at different positions get different `"{idx}.file"` field names, so none overwrites another. |
| Service.BuildFilesData | app/services/upscayle_services.py:34-38 | The multipart dict holds exactly one pair per file, in upload order: pair `i` is `"{i}.file"` with file `i`'s name, bytes and content type. |
| Service.FilesDataLookup | app/services/upscayle_services.py:34-38 | Looking up `"{i}.file"` in that dict gives file `i`, so no later write overwrites an earlier file. |
| Service.BuildPayload | app/services/upscayle_services.py:41-50 | The form fields are `model`, `scale`, `saveImageAs` and `enhanceFace` in that order, plus `urls` exactly when URLs were given and non-empty. The first three are copied as given. `enhanceFace` is `"true"` iff the flag is set, else `"false"`. `urls` is `json.dumps` of the list. |
| Service.PayloadUrlsRoundTrip | app/services/upscayle_services.py:49-50 | The payload has a `urls` field iff URLs were given, and reading that field back as JSON yields exactly the given list. |
| Service.UpscaleImages | app/services/upscayle_services.py:32-76 | It POSTs to `{api_url}/start-task` with the `X-API-Key` header, a 30-second timeout, the file dict and the payload above. It returns the decoded reply. A failed request becomes HTTP 500 with `"Error communicating with Upscayl API: "` and the reason. |
| JsonText.EscapeChar | app/services/upscayle_services.py:50 | `json.dumps` character escaping: the quote, backslash and five control characters get short escapes. Other characters outside printable ASCII become `\uXXXX` (a surrogate pair above U+FFFF); those rules are its body. Its contract only says the output is never empty and never starts with a bare quote. That the escape reads back as the character is `JsonText.EscapeCharRoundTrip`, which `JsonText.LoadsDumps` builds on. |
| JsonText.EscapeCharRoundTrip | app/services/upscayle_services.py:50 | The escape of any character, followed by any text, reads back as that character with the text left over. |
| JsonText.EscapeCharPrintable | app/services/upscayle_services.py:50 | Every single-character escape is printable ASCII, as with `ensure_ascii`. |
| JsonText.EscapePrintable | app/services/upscayle_services.py:50 | An encoded string body is printable ASCII only, whatever the input string. |
| JsonText.LoadsDumps | app/services/upscayle_services.py:50 | Decoding the `json.dumps` text of any list of strings gives back that list. |
| JsonText.DumpsInjective | app/services/upscayle_services.py:50 | Different URL lists are encoded as different `urls` fields. |
| PyText.DecimalRoundTrip | app/services/upscayle_services.py:37 | `str(idx)` reads back as `idx`. |
| PyText.DecimalInjective | app/services/upscayle_services.py:37 | Different indices have different decimal texts. |
| PyText.LowerBoolText | app/services/upscayle_services.py:45 | `str(flag).lower()` is `"true"` or `"false"`. |
| Service.NormaliseStatus | app/services/upscayle_services.py:104-128 | The in-place normalisation with its loop over `data.files` produces exactly `Normalised` of the decoded reply. |
| Service.GetTaskStatus | app/services/upscayle_services.py:93-134 | It POSTs `{"data": {"taskId": id}}` to `{api_url}/get-task-status` with the key, a JSON content type and a 10-second timeout. It returns the normalised reply. A failed request becomes HTTP 500 with `"Error fetching task status: "` and the reason. |
| Service.ImageUrlsAppend | app/services/upscayle_services.py:115-123 | The URLs collected from two runs of entries are those of the first run followed by those of the second. |
| Service.EntryPosition | app/services/upscayle_services.py:115-123 | Entry `i` adds at most one URL. It sits between the URLs of the entries before it and those after it. |
| Service.ImageUrlsFollowEntries | app/services/upscayle_services.py:109-123 | `image_urls` matches, in strictly increasing entry order, exactly the entries that yield a URL, one URL each. So it is never longer than `files`. |
| Service.DirectUrlPreferred | app/services/upscayle_services.py:116-119 | An object entry with `url` contributes that value at its position, whatever its `path`. |
| Service.PathJoinedToCdn | app/services/upscayle_services.py:114-123 | An entry with a string `path` and no `url` contributes exactly `"https://upscayl.org/" + path`. |
| Service.EntrySkipped | app/services/upscayle_services.py:116-123 | A non-object entry, or one with neither `url` nor `path`, contributes nothing. |
| Service.NormaliseWithoutData | app/services/upscayle_services.py:107-128 | A reply object without `data` is returned unchanged. |
| Service.NormaliseWithData | app/services/upscayle_services.py:107-128 | With a `data` object, `image_urls` holds the URLs of `data.files`, empty when `files` is missing or not a list. `task_status` is `data.status` as it came, or `""`. Every other key keeps its value, the old keys keep their order, and only the two written keys can be added, at the end. |
| Service.NormaliseDataNotObject | app/services/upscayle_services.py:108-139 | A `data` value that is not an object ends as HTTP 500. |
| Service.NormaliseIdempotent | app/services/upscayle_services.py:104-128 | Normalising an already normalised reply returns it unchanged. |
| Json.Put | app/services/upscayle_services.py:125-126 | `d[k] = v`: `k` now maps to `v` and every other key is unchanged. |
| Json.PutKeys | app/services/upscayle_services.py:125-126 | After `d[k] = v` an existing key keeps its place, and a new one is appended to the key order. |
| Json.PutNew | app/services/upscayle_services.py:36-38 | Writing a key that is not yet there appends exactly that pair at the end. |
| Json.PutTwo | app/services/upscayle_services.py:125-126 | Two writes to different keys: both hold their values, other keys are unchanged, old keys keep their order, and at most the two written keys are new. |
| Route.FirstDisallowed | app/services/upscayle_route.py:40-46 | Returns the first position in upload order whose content type is not allowed. It returns none exactly when every type is allowed. |
| Route.ValidateUploads | app/services/upscayle_route.py:32-46 | An upload passes iff it has at most 3 files, all of an allowed type. Every refusal is HTTP 400. |
| Route.CountCheckedFirst | app/services/upscayle_route.py:33-37 | More than three files are refused with the count message, whatever their types. |
| Route.ThreeFilesPass | app/services/upscayle_route.py:33 | Exactly three files of allowed types pass. |
| Route.TypeErrorNamesFirstOffender | app/services/upscayle_route.py:40-46 | The type error names the first offending file's content type and lists the allowed types. |
| Route.AsDictResponse | app/services/upscayle_route.py:13-62 | What a `response_model=dict` route sends: a dict result or an error passes unchanged, any other result becomes a 500, so a success is always a JSON object. |
| Route.UpscaleImages | app/services/upscayle_route.py:13-59 | A failed check ends the request with its 400, and no request is built. Otherwise the service is called with the form values and no URLs, so the outgoing payload has no `urls` field. The result is the service's reply when it is a dict, a 500 when it is not, or the service's own 500. |
| Route.GetTaskStatus | app/services/upscayle_route.py:62-73 | The route returns the service's answer unchanged when it is a dict or an error; any success it returns is a JSON object. |
| Route.StatusReplyAnswer | app/services/upscayle_route.py:62-73 | A dict status reply is answered with its normalised form. Any other decoded reply ends as a 500, raised either by the service or by the dict check. |

## Left out

- Network I/O (`requests.post`, `raise_for_status`, `response.json()`, the timeouts as behaviour): the request is a value and the reply an input. A failed request, an error status and an undecodable body all arrive as `RequestFailed`.
- File streams (`file.file.read()`, `seek(0)`): an upload's bytes are given.
- The text of the caught Python exception appended to each 500 detail: a failed request carries its reason as input, but a failure while processing a status reply carries only the `"Error processing task status: "` prefix.
- The `except Exception` branch of `upscale_images` (app/services/upscayle_services.py:77-81): in the model only the network call can fail there.
- JSON numbers with a fraction or exponent: `Json` holds integers only.
- `PyText.Str` on a `path` that is itself a list or object: Python prints it with `repr`. The model quotes nested strings with single quotes, without Python's choice of quote or its escaping.
- `PyText.Lower` lowers ASCII letters only. It is only applied to `"True"`/`"False"`.
- A decoded object with a repeated key: JSON decoding never produces one. The model reads the first occurrence.
- Environment and dotenv loading (app/core/config.py) and the module-level singleton: the service is a value built by `Service.NewService` and passed to the routes.
- The body of FastAPI's answer to a non-dict result: it is a plain-text `Internal Server Error`, not a JSON `detail`. The model records it as `HttpError(500, "Internal Server Error")`.
- FastAPI's form handling: filling the form defaults, parsing `enhanceFace`, and the 422 for a missing `files` field. The route takes the resolved values.
- `main.py` (app setup, CORS, the root greeting, uvicorn) and the declared but unused `FileInfo`, `FileDimensions` and `UpscaleResponse` schemas.
- Polling, backoff, deadlines, cancellation and status classification: no shown file implements them.
