/** The Flask back end (app.py): the `POST /download` view, which validates the
    request, configures the downloader, runs it and picks the produced file out of
    the download folder, and the `GET /file/<filename>` view, which serves it.
    The downloader, the folder listing and the file system are inputs. */
module Server {
  import opened Json

  const DownloadFolder := "/tmp/downloads"
  const CookieFilePath := "/etc/secrets/cookies.txt"

  const NoJsonError := "No se recibieron datos JSON"
  const InvalidParamsError := "Parámetros inválidos: se requiere URL y formato (mp3 o mp4)"
  const MissingArtifactError := "Archivo no encontrado después de la descarga"
  const UnexpectedErrorPrefix := "Error inesperado: "
  const FileNotFoundBody := "Archivo no encontrado"

  const AudioSelector := "bestaudio/best"
  const VideoSelector := "bestvideo[ext=mp4]+bestaudio[ext=m4a]/best[ext=mp4]/best"

  /** The two formats the view accepts. */
  datatype Format = Mp3 | Mp4

  /** The JSON answer of the download view, with its HTTP status. */
  datatype Response =
    | Success(filename: string)            // 200 {"success": true, "download_url": <url of GET /file/filename>}
    | Failure(status: int, error: string)  // {"success": false, "error": error}
    | Unhandled                            // an exception escaped the view; Flask answers 500 by itself

  /** The outcome of the first stage of the view. */
  datatype Validation = Accepted(url: Value, format: Format) | Rejected(response: Response)

  /** One entry of the downloader's `postprocessors` list. */
  datatype PostProcessor = PostProcessor(key: string, preferredCodec: string, preferredQuality: string)

  /** A value of the downloader's option dictionary. */
  datatype OptionValue = OStr(str: string) | OFlag(flag: bool) | OPostProcessors(list: seq<PostProcessor>)

  type Options = map<string, OptionValue>

  /** What the exception handlers of the view can catch. `DownloadError` is the
      downloader's own error class; every other exception is `OtherError`. */
  datatype Fault = DownloadError(text: string) | OtherError(text: string)

  /** What the downloader did: it returned, leaving `listing` as the names in the
      download folder, or it raised. */
  datatype Run = Produced(listing: seq<string>) | Raised(fault: Fault)

  /** The one call of the downloader the view makes: `YoutubeDL(options).download([url])`. */
  datatype Invocation = Invocation(url: Value, options: Options)

  /** `str(uuid4())`: 36 lower-case hexadecimal digits and dashes in the 8-4-4-4-12
      layout, version digit 4, variant digit 8, 9, a or b. Such a text has no glob
      metacharacter and no slash. */
  predicate IsUuidText(s: string)
  {
    && |s| == 36
    && (forall i :: 0 <= i < 36 ==>
          if i == 8 || i == 13 || i == 18 || i == 23 then s[i] == '-' else s[i] in "0123456789abcdef")
    && s[14] == '4'
    && s[19] in "89ab"
  }

  /** `os.path.join(dir, name)` for two arguments on POSIX. */
  function Join(dir: string, name: string): string
  {
    if StartsWith(name, "/") then name
    else if dir == "" || dir[|dir| - 1] == '/' then dir + name
    else dir + "/" + name
  }

  lemma JoinRelative(dir: string, name: string)
    requires name != [] && name[0] != '/'
    requires dir != [] && dir[|dir| - 1] != '/'
    ensures Join(dir, name) == dir + "/" + name
  {
  }

  function ParseFormat(v: Value): (r: Option<Format>)
    ensures r == Some(Mp3) <==> v == JStr("mp3")
    ensures r == Some(Mp4) <==> v == JStr("mp4")
  {
    if v == JStr("mp3") then Some(Mp3)
    else if v == JStr("mp4") then Some(Mp4)
    else None
  }

  /** The extension looked for first: `'mp3' if fmt == 'mp3' else 'mp4'`. */
  function Extension(format: Format): string
  {
    match format
    case Mp3 => "mp3"
    case Mp4 => "mp4"
  }

  // ---------------------------------------------------------------------------
  // Input validation

  /** The checks at the start of the view. `body` is what `request.get_json()`
      returned (`None` for no JSON document). A falsy body and a missing or falsy
      `url` or a `format` other than the strings "mp3" and "mp4" are answered with
      400; a truthy body that is not an object makes `data.get` raise before the
      `try` block. */
  function Validate(body: Option<Value>): (r: Validation)
    ensures r.Accepted? <==>
              && body.Some? && body.value.JObj? && PyTruthy(body.value)
              && PyTruthy(Get(body.value.fields, "url"))
              && Get(body.value.fields, "format") in {JStr("mp3"), JStr("mp4")}
    ensures r.Accepted? ==>
              && r.url == Get(body.value.fields, "url")
              && Get(body.value.fields, "format") == JStr(Extension(r.format))
    ensures r == Rejected(Failure(400, NoJsonError)) <==> body.None? || !PyTruthy(body.value)
    ensures r == Rejected(Unhandled) <==> body.Some? && PyTruthy(body.value) && !body.value.JObj?
    ensures r.Rejected? ==>
              r.response in {Failure(400, NoJsonError), Failure(400, InvalidParamsError), Unhandled}
  {
    if body.None? || !PyTruthy(body.value) then
      Rejected(Failure(400, NoJsonError))
    else if !body.value.JObj? then
      Rejected(Unhandled)
    else
      var url := Get(body.value.fields, "url");
      var format := ParseFormat(Get(body.value.fields, "format"));
      if !PyTruthy(url) || format.None? then Rejected(Failure(400, InvalidParamsError))
      else Accepted(url, format.value)
  }

  // ---------------------------------------------------------------------------
  // Option building

  /** The extract-audio step that the mp3 format adds. */
  const ExtractMp3 := PostProcessor("FFmpegExtractAudio", "mp3", "192")

  /** What the downloader's option dictionary must hold for a job: the output
      template `DOWNLOAD_FOLDER/{prefix}.%(ext)s`, single-video mode, the cookie
      file exactly when it exists, and the format selector with its post-processing. */
  predicate Configured(opts: Options, prefix: string, format: Format, cookieExists: bool)
  {
    && opts.Keys == {"outtmpl", "noplaylist", "format"}
                    + (if cookieExists then {"cookiefile"} else {})
                    + (if format == Mp3 then {"postprocessors"} else {})
    && opts["outtmpl"] == OStr(DownloadFolder + "/" + prefix + ".%(ext)s")
    && opts["noplaylist"] == OFlag(true)
    && (cookieExists ==> opts["cookiefile"] == OStr(CookieFilePath))
    && opts["format"] == OStr(if format == Mp3 then AudioSelector else VideoSelector)
    && (format == Mp3 ==> opts["postprocessors"] == OPostProcessors([ExtractMp3]))
  }

  /** Builds `ydl_opts` as the view does: a base dictionary, then the cookie file
      when it exists, then the format entries (two for mp3, one for mp4). */
  method BuildOptions(prefix: string, format: Format, cookieExists: bool) returns (opts: Options)
    requires IsUuidText(prefix)
    ensures Configured(opts, prefix, format, cookieExists)
    ensures "cookiefile" in opts <==> cookieExists
    ensures "postprocessors" in opts <==> format == Mp3
  {
    JoinRelative(DownloadFolder, prefix + ".%(ext)s");
    var template := Join(DownloadFolder, prefix + ".%(ext)s");
    opts := map["outtmpl" := OStr(template), "noplaylist" := OFlag(true)];
    if cookieExists {
      opts := opts["cookiefile" := OStr(CookieFilePath)];
    }
    if format == Mp3 {
      opts := opts["format" := OStr(AudioSelector)];
      opts := opts["postprocessors" := OPostProcessors([ExtractMp3])];
    } else {
      opts := opts["format" := OStr(VideoSelector)];
    }
  }

  /** `Configured` leaves no freedom: the option dictionary is a function of the
      prefix, the format and whether the cookie file exists. */
  lemma ConfiguredIsUnique(a: Options, b: Options, prefix: string, format: Format, cookieExists: bool)
    requires Configured(a, prefix, format, cookieExists)
    requires Configured(b, prefix, format, cookieExists)
    ensures a == b
  {
  }

  // ---------------------------------------------------------------------------
  // Artifact selection

  /** The name the downloader is expected to produce: `{prefix}.{ext}`. */
  function ArtifactName(prefix: string, format: Format): string
  {
    prefix + "." + Extension(format)
  }

  /** No entry before position `i` of the listing starts with `stem`. */
  predicate NoneBefore(listing: seq<string>, stem: string, i: int)
    requires 0 <= i <= |listing|
  {
    forall j :: 0 <= j < i ==> !StartsWith(listing[j], stem)
  }

  /** `glob(DOWNLOAD_FOLDER/{stem}*)` on a listing of that folder, for a stem
      without metacharacters: the entries that start with the stem, in listing
      order. */
  function WithStem(listing: seq<string>, stem: string): (r: seq<string>)
    ensures forall n :: n in r <==> n in listing && StartsWith(n, stem)
    ensures r != [] ==>
              exists i :: 0 <= i < |listing| && listing[i] == r[0] && NoneBefore(listing, stem, i)
  {
    if listing == [] then []
    else if StartsWith(listing[0], stem) then
      assert NoneBefore(listing, stem, 0);
      [listing[0]] + WithStem(listing[1..], stem)
    else
      var rest := WithStem(listing[1..], stem);
      if rest != [] then
        var i :| 0 <= i < |listing[1..]| && listing[1..][i] == rest[0] && NoneBefore(listing[1..], stem, i);
        assert NoneBefore(listing, stem, i + 1) by {
          forall j | 0 <= j < i + 1 ensures !StartsWith(listing[j], stem) {
            if j > 0 { assert listing[j] == listing[1..][j - 1]; }
          }
        }
        rest
      else
        rest
  }

  /** The file the view reports: `{prefix}.{ext}` when the folder has it,
      otherwise the first entry matching `{prefix}.*`, and nothing when no entry
      matches. */
  function SelectArtifact(prefix: string, format: Format, listing: seq<string>): (r: Option<string>)
    ensures ArtifactName(prefix, format) in listing ==> r == Some(ArtifactName(prefix, format))
    ensures r.Some? ==> r.value in listing && StartsWith(r.value, prefix + ".")
    ensures r.None? <==> forall n :: n in listing ==> !StartsWith(n, prefix + ".")
    ensures r.Some? && ArtifactName(prefix, format) !in listing ==>
              exists i :: 0 <= i < |listing| && listing[i] == r.value && NoneBefore(listing, prefix + ".", i)
  {
    var exact := ArtifactName(prefix, format);
    StartsWithConcat(prefix + ".", Extension(format));
    if exact in listing then Some(exact)
    else
      var candidates := WithStem(listing, prefix + ".");
      if candidates == [] then None else Some(candidates[0])
  }

  /** The fallback does not skip partial downloads: a folder holding only
      `{prefix}.{ext}.part` makes the view report that file. */
  lemma PartialFileIsSelected(prefix: string, format: Format)
    ensures SelectArtifact(prefix, format, [ArtifactName(prefix, format) + ".part"])
            == Some(ArtifactName(prefix, format) + ".part")
  {
  }

  // ---------------------------------------------------------------------------
  // The download view

  /** `download()`. `prefix` is the random job prefix, `cookieExists` says whether
      the cookie file is present, `run` is what the downloader does if it is called.
      Besides the response, the view reports the call it made to the downloader. */
  method HandleDownload(body: Option<Value>, prefix: string, cookieExists: bool, run: Run)
    returns (response: Response, call: Option<Invocation>)
    requires IsUuidText(prefix)
    ensures Validate(body).Rejected? ==> response == Validate(body).response && call.None?
    ensures Validate(body).Accepted? ==>
              && call.Some?
              && call.value.url == Validate(body).url
              && Configured(call.value.options, prefix, Validate(body).format, cookieExists)
    ensures Validate(body).Accepted? && run.Raised? && run.fault.DownloadError? ==>
              response == Failure(500, run.fault.text)
    ensures Validate(body).Accepted? && run.Raised? && run.fault.OtherError? ==>
              response == Failure(500, UnexpectedErrorPrefix + run.fault.text)
    ensures Validate(body).Accepted? && run.Produced? ==>
              var chosen := SelectArtifact(prefix, Validate(body).format, run.listing);
              && (response.Success? <==> chosen.Some?)
              && (response.Success? ==> chosen == Some(response.filename))
              && (!response.Success? ==> response == Failure(500, MissingArtifactError))
    ensures response.Success? ==>
              && run.Produced? && response.filename in run.listing
              && StartsWith(response.filename, prefix + ".")
  {
    var validation := Validate(body);
    if validation.Rejected? {
      return validation.response, None;
    }
    var options := BuildOptions(prefix, validation.format, cookieExists);
    call := Some(Invocation(validation.url, options));
    match run {
      case Raised(DownloadError(text)) =>
        response := Failure(500, text);
      case Raised(OtherError(text)) =>
        response := Failure(500, UnexpectedErrorPrefix + text);
      case Produced(listing) =>
        var chosen := SelectArtifact(prefix, validation.format, listing);
        if chosen.None? {
          response := Failure(500, MissingArtifactError);
        } else {
          response := Success(chosen.value);
        }
    }
  }

  // ---------------------------------------------------------------------------
  // The file view

  /** The answer of `serve_file`. */
  datatype FileReply = Attachment(path: string) | NotFound(status: int, body: string)

  /** `serve_file(filename)`: 404 when `DOWNLOAD_FOLDER/filename` does not exist,
      otherwise the file, sent as an attachment. `existing` is the set of paths for
      which `os.path.exists` holds. The name is joined as given. */
  function ServeFile(filename: string, existing: set<string>): (r: FileReply)
    ensures r.NotFound? <==> Join(DownloadFolder, filename) !in existing
    ensures r.NotFound? ==> r == NotFound(404, FileNotFoundBody)
    ensures r.Attachment? ==> r.path == Join(DownloadFolder, filename) && r.path in existing
  {
    var path := Join(DownloadFolder, filename);
    if path !in existing then NotFound(404, FileNotFoundBody) else Attachment(path)
  }

  /** Every listed name is a file of the download folder. */
  predicate ListsFolder(listing: seq<string>, existing: set<string>)
  {
    forall n :: n in listing ==> Join(DownloadFolder, n) in existing
  }

  /** The name the download view reports can be fetched from the file view: it is
      served as an attachment from the download folder. */
  lemma SelectedArtifactIsServed(prefix: string, format: Format, listing: seq<string>, existing: set<string>)
    requires IsUuidText(prefix)
    requires ListsFolder(listing, existing)
    requires SelectArtifact(prefix, format, listing).Some?
    ensures var name := SelectArtifact(prefix, format, listing).value;
            ServeFile(name, existing) == Attachment(DownloadFolder + "/" + name)
  {
    var name := SelectArtifact(prefix, format, listing).value;
    assert prefix[0] in "0123456789abcdef";
    assert name[..|prefix + "."|] == prefix + ".";
    assert name[0] == (prefix + ".")[0] == prefix[0];
    JoinRelative(DownloadFolder, name);
    assert Join(DownloadFolder, name) in existing;
  }
}
