# descargaYT: the download view, the file view and the polling client

descargaYT is a small media downloader. A Flask back end (`app.py`) takes a URL and a format (`mp3` or `mp4`), runs yt-dlp into `/tmp/downloads` under a random uuid4 prefix, and reports which file was produced. A second view serves that file as an attachment. A browser script (`script.js`) submits the form, polls a status endpoint and updates a progress bar, a message line and the submit button.

This project models both halves in Dafny:

- `json.dfy` (module `Json`): JSON values, as both sides decode them. It also holds Python's and JavaScript's truthiness, which the source relies on in `if not data`, `if not url`, `data.status || ...` and `data.success`.
- `server.dfy` (module `Server`): the three stages of `download()`.
  - Validation (`Validate`) is a pure function.
  - Option building (`BuildOptions`) is a method. Like the source, it builds a base dictionary, then adds the cookie file when it exists, then the format entries (two for mp3, one for mp4).
  - Artifact selection (`SelectArtifact`, over the glob filter `WithStem`) is a pure function.
  - `HandleDownload` chains the three stages and the exception handlers. It returns the response and the record of the downloader invocation; the record is `None` exactly when validation rejected the request.
  - `ServeFile` is the exists-or-404 decision of `serve_file()`.
- `client.dfy` (module `Client`): the script as a class `Page`. Its fields are the state its helpers write, and each helper is a method. `updateButton`, `showProgress`, `updateProgress`, `resetForm`, `showSuccess`, `showError`, `downloadFile`, `pollTaskStatus` and one polling tick (`HandleStatus`) are modelled. The submit handler is modelled up to its `fetch` (`BeginSubmit`) and after it (`FinishSubmit`), and the completion timeout has its own method (`FireSuccessTimeout`). Each method states the whole new state: the visible part through the `Screen` datatype, the rest field by field. Each method also keeps `Valid()`.
- `protocol.dfy` (module `Protocol`): what the client makes of the view's answers.

Inputs stand in for everything foreign:
- the body `request.get_json()` returned;
- the uuid4 prefix, a text in uuid4 layout;
- whether the cookie file exists;
- what yt-dlp did: the folder listing it left, or the exception it raised;
- the set of existing paths, for `serve_file`;
- the server's answers to the client.

The URL built by `url_for` is left as a function of the file name: a `Success` response carries the file name.

The two halves of the repository do not agree, and the model follows app.py:
- script.js:144 polls `/status/{task_id}` and run.py:32 starts a Celery worker (`app.celery`). But app.py is synchronous: it has no `/status` route and no Celery app, and its success answer has no `task_id`. `Protocol.ClientReadsViewAnswer` states that a successful download makes the client poll with an absent task id. `Protocol.FirstTickAfterSuccess` carries this to its end: the first tick gets an HTML 404 it cannot decode, polling stops with "Error al verificar el estado de la descarga", and no download starts.
- `serve_file` joins the requested name without any path-traversal check.
- The fallback glob `{prefix}.*` does not skip partial or temporary files; `Server.PartialFileIsSelected` shows that a lone `.part` file is reported.
- There is no bounded retry loop around the artifact search: the folder is looked at once.

A status tick runs asynchronously and can complete after its interval was cleared. For that reason `HandleStatus` accepts any interval that was started, live or cleared. A late tick cannot make a cleared interval live again, but it can still move the progress bar: `Client.LateTickAfterSuccess` shows a PROGRESS tick arriving after SUCCESS.

## Model

| member | source | states |
|---|---|---|
| `Json.TruthinessDiffers` | script.js:195 | Python's truthiness (used by the view) and JavaScript's (used by the client) differ exactly on the empty array and the empty object |
| `Server.ParseFormat` | app.py:30 | a format is accepted exactly when it is the string "mp3" or the string "mp4" |
| `Server.Validate` | app.py:23-31 | the request is accepted exactly when the body is a non-empty object whose `url` is truthy and whose `format` is "mp3" or "mp4"; a missing or falsy body gives 400 "No se recibieron datos JSON"; a truthy non-object body makes `data.get` raise outside the handlers; every other rejection is 400 with the invalid-parameters message |
| `Server.JoinRelative` | app.py:34 | joining a folder without a trailing slash and a name that does not start with a slash puts exactly one slash between them |
| `Server.BuildOptions` | app.py:33-54 | the options have `outtmpl = /tmp/downloads/{prefix}.%(ext)s` and `noplaylist = true`; `cookiefile` is present exactly when the cookie file exists and then names it; mp3 gives format `bestaudio/best` and exactly one FFmpegExtractAudio step with codec mp3 and quality 192; mp4 gives the mp4 selector and no `postprocessors` key; there are no other keys |
| `Server.ConfiguredIsUnique` | app.py:37-54 | the option dictionary is determined by the prefix, the format and the cookie flag |
| `Server.WithStem` | app.py:64 | the glob `{stem}*` over the folder yields exactly the listed names that start with the stem, and its first element is the first such name in listing order |
| `Server.SelectArtifact` | app.py:60-69 | if `{prefix}.{ext}` is listed, it is the answer; any answer is a listed name starting with `{prefix}.`; there is no answer exactly when no listed name starts with `{prefix}.`; without the exact name, the answer is the first listed name starting with `{prefix}.` |
| `Server.PartialFileIsSelected` | app.py:63-67 | a folder holding only `{prefix}.{ext}.part` makes that partial file the answer |
| `Server.HandleDownload` | app.py:22-81 | a rejected request gets the validation response and the downloader is never invoked; an accepted one invokes it once, with the request's url and the configured options; a DownloadError gives 500 with its text unchanged; any other exception gives 500 with the text prefixed `Error inesperado: `; after a run, success happens exactly when selection finds a file, the reported name is the selected one, and otherwise the answer is 500 "Archivo no encontrado después de la descarga"; a success always names a listed file carrying the job's prefix |
| `Server.ServeFile` | app.py:84-90 | the answer is 404 "Archivo no encontrado" exactly when the joined path does not exist; otherwise the joined path is sent as an attachment |
| `Server.SelectedArtifactIsServed` | app.py:86-90 | when the listing is the download folder's content, the name the download view reports is served as an attachment from `/tmp/downloads/{name}` |
| `Client.OrElse` | script.js:150 | JavaScript's logical-or of an absent-or-string field with a fallback text: the field when it is a non-empty string, otherwise the fallback |
| `Client.Screen.Reported` | script.js:107-128 | after `showSuccess` or `showError` the form is reset (button enabled with the idle label and icon, bar at 0%), the progress and funny boxes are hidden, the message and its style are set, and the progress text is kept |
| `Client.Page.UpdateButton` | script.js:76-89 | loading shows the spinner, disables the button and labels it with the text or "Procesando..."; not loading restores the icon, the label "Descargar" and enables it; nothing else changes |
| `Client.Page.ShowProgress` | script.js:92-97 | the progress section is shown with the given width and text, and the funny box is shown |
| `Client.Page.UpdateProgress` | script.js:100-104 | the bar width and text are set and the funny box is shown; visibility of the section is unchanged |
| `Client.Page.ResetForm` | script.js:125-128 | the button is idle and enabled and the bar is at 0%; nothing else changes |
| `Client.Page.ShowSuccess` | script.js:107-113 | the screen becomes `Reported(text, success)`; the form is reset |
| `Client.Page.ShowError` | script.js:116-122 | the screen becomes `Reported(text, error)`; the form is reset |
| `Client.Page.DownloadFile` | script.js:131-138 | the URL is appended to the links clicked |
| `Client.Page.ClearInterval` | script.js:152 | the handle is no longer live; clearing a cleared handle changes nothing |
| `Client.Page.PollTaskStatus` | script.js:141-169 | a fresh handle, never live before, is started for the task id; no cleared handle becomes live |
| `Client.Page.HandleStatus` | script.js:142-168 | PENDING: bar 10%, "Esperando en cola...", keeps polling; PROGRESS: bar 50%, `data.status` or "Procesando...", keeps polling; SUCCESS: stops this interval, bar 100%, "¡Descarga completada!", schedules the completion with `data.download_url`; FAILURE: stops, shows "Error: " + (`data.error` or "Error desconocido"); any other state changes nothing; an exception stops and shows "Error al verificar el estado de la descarga"; the live set never grows and a cleared handle stays cleared |
| `Client.Page.FireSuccessTimeout` | script.js:155-158 | the oldest scheduled completion shows "¡Listo! La descarga comenzará automáticamente...", resets the form and then clicks its download URL |
| `Client.Page.BeginSubmit` | script.js:172-183 | the message is cleared, the button is busy with "Procesando...", the progress section shows 5% "Iniciando..." |
| `Client.Page.FinishSubmit` | script.js:185-204 | polling starts (one new interval for `data.task_id`, screen unchanged) exactly when `response.ok && data.success`; otherwise no interval starts and "Error: " + (`data.error` or "Respuesta inesperada del servidor.") is shown; an exception shows "Error de conexión. Verifica tu conexión a internet." |
| `Protocol.AsSubmitReply` | app.py:72-81 | the client receives `ok` and `success: true` with no task id for a success, the view's error text with `success: false` for a failure, and an exception when the view raised outside its handlers |
| `Protocol.ClientReadsViewAnswer` | script.js:193-200 | a successful download starts polling with an absent task id; a failure shows the view's error text (or the fallback when it is empty) and starts nothing; the boolean `success` the view sends reads the same in Python and JavaScript |
| `Protocol.FirstTickAfterSuccess` | script.js:141-166 | after a successful download, the first status tick (an HTML 404 that `response.json()` cannot decode) shows "Error al verificar el estado de la descarga", leaves no interval live and no completion scheduled, and clicks no download link |

## Left out

- yt-dlp itself (app.py:57-58): a foreign library. It is the input `run`: the listing it leaves, or the exception it raises.
- `uuid4()` (app.py:33): randomness. The prefix is an input required to have uuid4 layout, so it contains no glob metacharacter and does not start with a slash.
- `glob` (app.py:61, 64): the listing order comes from the file system. It is an input sequence, and the model takes its first match without assuming any order. Hidden-file and case rules of `fnmatch` cannot affect names that start with a uuid text.
- Flask's own behaviour: routing, CORS, `send_file` streaming, and the 415 or 400 that `get_json()` may raise for a non-JSON or malformed body. A body that is not JSON is modelled as `None`, and an exception escaping the view as `Unhandled`.
- `url_for` (app.py:70): a success answer carries the file name, not the URL.
- Path traversal and partial-file filtering: app.py performs neither, so neither is asserted.
- run.py: process spawning and signal handling.
- In script.js: the DOM elements themselves and the CSS classes beyond the message style. Also left out are the keep-alive ping (script.js:50-55), the random funny texts (script.js:58-61), the paste and load animations (script.js:208-227), the `console.error` logging and all timing. Intervals and timeouts are events the caller fires; all scheduled completions have the same delay, so they fire in scheduling order.
- Client.Page.HandleStatus: `data.status`, `data.error`, `data.state` and `data.download_url` are modelled as absent or a string. JavaScript's string conversion of other JSON values in `"Error: " + data.error` is not modelled.
- Client.Page.FinishSubmit: `data.error` and `data.task_id` of the submit answer are modelled as absent or a string, for the same reason. `data.success` is a full JSON value.
- Client.Page.constructor: the page's initial markup (index.html) is not part of this model. The constructor assumes an empty message, a hidden progress section at 0% and an idle button.
- Client.Page.BeginSubmit: the URL and format read from the inputs go into the request body, which is not modelled on the client side.
