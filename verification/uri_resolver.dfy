/**
 * How the descriptor service turns the `<uri>` part of a request into a
 * local file (python/smqtk/web/descriptor_service/server.py, lines 139-196).
 *
 * The three addressing schemes are told apart by a literal prefix. The
 * filesystem, the HTTP client, base64 decoding, the MIME table and
 * `tempfile.mkstemp` are not modelled; they reach the resolver as the
 * fields of an `Io` record of functions.
 */
module UriResolver {
  import opened Options
  import opened Text

  newtype byte = x: int | 0 <= x < 256

  type NonEmptyString = s: string | s != [] witness "/"

  const FilePrefix: string := "file://"
  const Base64Prefix: string := "base64://"

  /** The `message` the request starts with; every branch that resolves a file leaves it in place. */
  const InitialMessage: string := "Nothing has happened yet"
  const FileMissingMessage: string := "File URI did not point to an existing file on disk."
  const NoContentTypeMessage: string := "No content-type with given base64 content."
  const FetchFailedPrefix: string := "Web request did not yield an OK response (received "

  /** The message for a web request that did not come back OK: `"... (received %d :: %s)" % (status, reason)`. */
  function FetchFailedMessage(status: int, reason: string): (m: string)
    ensures FetchFailedPrefix <= m
    ensures |m| == |FetchFailedPrefix| + |IntToDecimal(status)| + 4 + |reason| + 1
    ensures m[|FetchFailedPrefix|..|FetchFailedPrefix| + |IntToDecimal(status)|] == IntToDecimal(status)
    ensures m[|FetchFailedPrefix| + |IntToDecimal(status)|..|FetchFailedPrefix| + |IntToDecimal(status)| + 4] == " :: "
    ensures m[|FetchFailedPrefix| + |IntToDecimal(status)| + 4..|m| - 1] == reason
    ensures m[|m| - 1] == ')'
  {
    var digits := IntToDecimal(status);
    var at := |FetchFailedPrefix| + |digits|;
    var m := FetchFailedPrefix + digits + " :: " + reason + ")";
    assert m[|FetchFailedPrefix|..at] == digits;
    assert m[at..at + 4] == " :: ";
    assert m[at + 4..|m| - 1] == reason;
    m
  }

  /** The reply of `requests.get`, reduced to what the service reads. */
  datatype HttpResponse = HttpResponse(
    statusCode: int,
    reason: string,
    contentType: string,
    content: seq<byte>)
  {
    /** `Response.ok`: false exactly for a client error (4xx) or a server error (5xx) status. */
    predicate Ok()
    {
      !(400 <= statusCode < 600)
    }
  }

  /** What `requests.get` does: comes back with a reply, or raises (no scheme, host unreachable, time-out, ...). */
  datatype Fetch = Replied(response: HttpResponse) | FetchRaised(error: string)

  /**
   * The outside world as the resolver sees it.
   * `mkstemp` receives a suffix and yields the path of a fresh file; such a
   * path is never empty.
   */
  datatype Io = Io(
    isFile: string -> bool,
    get: string -> Fetch,
    decodeBase64: string -> seq<byte>,
    guessExtension: string -> Option<string>,
    mkstemp: string -> NonEmptyString)

  /** A temporary file created during resolution, with the bytes written into it. */
  datatype TempFile = TempFile(path: string, suffix: string, contents: seq<byte>)

  /**
   * The state of the request after the URI has been resolved: the source's
   * `success`, `message`, `filepath` and `remove_file`, together with the
   * outside effects of resolving, the temporary file created and the URL
   * requested over the network. `raised` holds the exception a call made
   * while resolving raised, which ends the handler; `message` then carries
   * its text.
   */
  datatype Resolution = Resolution(
    success: bool,
    message: string,
    filepath: Option<string>,
    removeFile: bool,
    created: Option<TempFile>,
    requested: Option<string>,
    raised: Option<string>)

  datatype Scheme = LocalFile | Base64Data | Remote

  /** Which branch handles `uri`: `uri[:7] == "file://"`, then `uri[:9] == "base64://"`, else the web. */
  function SchemeOf(uri: string): (s: Scheme)
    ensures s == LocalFile <==> FilePrefix <= uri
    ensures s == Base64Data <==> Base64Prefix <= uri
    ensures s == Remote <==> !(FilePrefix <= uri) && !(Base64Prefix <= uri)
  {
    HeadIsPrefixTest(uri, FilePrefix);
    HeadIsPrefixTest(uri, Base64Prefix);
    PrefixesDisjoint(uri);
    if Head(uri, 7) == FilePrefix then LocalFile
    else if Head(uri, 9) == Base64Prefix then Base64Data
    else Remote
  }

  /** The two scheme prefixes exclude each other, so at most one of the first two branches can apply. */
  lemma PrefixesDisjoint(uri: string)
    ensures !(FilePrefix <= uri && Base64Prefix <= uri)
  {
    assert FilePrefix[0] != Base64Prefix[0];
  }

  function Failed(message: string, requested: Option<string>): Resolution
  {
    Resolution(false, message, None, false, None, requested, None)
  }

  function Raising(error: string, requested: Option<string>): Resolution
  {
    Resolution(false, error, None, false, None, requested, Some(error))
  }

  /** The `TypeError` Python 2.7's `mkstemp` raises when handed `suffix=None`. */
  const NoneSuffixError: string := "cannot concatenate 'str' and 'NoneType' objects"

  /**
   * Writes `contents` to a fresh temporary file whose suffix is the MIME
   * type's extension and resolves to it. `mkstemp(suffix=None)` raises, so a
   * MIME type without a known extension ends the request with nothing created.
   */
  function ToTempFile(io: Io, mimeType: string, contents: seq<byte>, requested: Option<string>): (r: Resolution)
    ensures r.requested == requested
    ensures io.guessExtension(mimeType).None? ==> && !r.success && r.raised == Some(NoneSuffixError)
                                                  && r.created == None && r.filepath == None
    ensures io.guessExtension(mimeType).Some? ==>
      && r.success && r.removeFile && r.message == InitialMessage && r.raised == None
      && r.created == Some(TempFile(io.mkstemp(io.guessExtension(mimeType).value),
                                    io.guessExtension(mimeType).value, contents))
      && r.filepath == Some(r.created.value.path) && r.created.value.path != []
  {
    match io.guessExtension(mimeType)
    case None => Raising(NoneSuffixError, requested)
    case Some(ext) =>
      var path := io.mkstemp(ext);
      Resolution(true, InitialMessage, Some(path), true, Some(TempFile(path, ext, contents)), requested, None)
  }

  /**
   * Resolves `uri` to a local file. `contentType` is the request's
   * `content_type` query argument, absent when not given.
   */
  function Resolve(uri: string, contentType: Option<string>, io: Io): (r: Resolution)
    ensures r.success <==> r.filepath.Some?
    ensures r.success ==> r.message == InitialMessage && r.raised == None
    ensures r.raised.Some? ==> r.message == r.raised.value && r.created == None
    ensures r.removeFile <==> r.created.Some?
    ensures r.created.Some? ==> r.filepath == Some(r.created.value.path) && r.created.value.path != []
    ensures r.requested.Some? <==> SchemeOf(uri) == Remote
    ensures r.requested.Some? ==> r.requested.value == uri
    ensures SchemeOf(uri) == LocalFile ==> r.raised == None
  {
    match SchemeOf(uri)
    case LocalFile =>
      var path := Tail(uri, |FilePrefix|);
      if !io.isFile(path) then Failed(FileMissingMessage, None)
      else Resolution(true, InitialMessage, Some(path), false, None, None, None)
    case Base64Data =>
      if contentType.None? || contentType.value == [] then Failed(NoContentTypeMessage, None)
      else ToTempFile(io, contentType.value, io.decodeBase64(Tail(uri, |Base64Prefix|)), None)
    case Remote =>
      match io.get(uri)
      case FetchRaised(e) => Raising(e, Some(uri))
      case Replied(response) =>
        if response.Ok() then ToTempFile(io, response.contentType, response.content, Some(uri))
        else Failed(FetchFailedMessage(response.statusCode, response.reason), Some(uri))
  }

  // ---------------------------------------------------------------------
  // The branches one by one

  /** A `file://` URI naming an existing file resolves to that path, with nothing to remove. */
  lemma LocalFileFound(uri: string, contentType: Option<string>, io: Io)
    requires FilePrefix <= uri && io.isFile(uri[|FilePrefix|..])
    ensures var r := Resolve(uri, contentType, io);
      && r.success && r.message == InitialMessage
      && r.filepath == Some(uri[|FilePrefix|..])
      && !r.removeFile && r.created == None && r.requested == None && r.raised == None
  {
  }

  /** A `file://` URI naming no file fails with the missing-file message. */
  lemma LocalFileMissing(uri: string, contentType: Option<string>, io: Io)
    requires FilePrefix <= uri && !io.isFile(uri[|FilePrefix|..])
    ensures var r := Resolve(uri, contentType, io);
      && !r.success && r.message == FileMissingMessage
      && r.filepath == None && !r.removeFile && r.created == None && r.requested == None && r.raised == None
  {
  }

  /** A `base64://` URI without a (non-empty) content type fails before anything is decoded or written. */
  lemma Base64WithoutContentType(uri: string, contentType: Option<string>, io: Io)
    requires Base64Prefix <= uri
    requires contentType.None? || contentType.value == []
    ensures var r := Resolve(uri, contentType, io);
      && !r.success && r.message == NoContentTypeMessage
      && r.filepath == None && !r.removeFile && r.created == None && r.requested == None && r.raised == None
  {
    PrefixesDisjoint(uri);
  }

  /**
   * A `base64://` URI with a content type of known extension is decoded
   * into a fresh temporary file that is to be removed.
   */
  lemma Base64Decoded(uri: string, contentType: Option<string>, io: Io)
    requires Base64Prefix <= uri
    requires contentType.Some? && contentType.value != []
    requires io.guessExtension(contentType.value).Some?
    ensures var r := Resolve(uri, contentType, io);
      var ext := io.guessExtension(contentType.value).value;
      && r.success && r.removeFile && r.requested == None && r.raised == None
      && r.created == Some(TempFile(io.mkstemp(ext), ext, io.decodeBase64(uri[|Base64Prefix|..])))
      && r.filepath == Some(r.created.value.path)
  {
    PrefixesDisjoint(uri);
  }

  /** A content type without a known extension makes `mkstemp` raise: nothing is written. */
  lemma UnknownExtensionRaises(uri: string, contentType: Option<string>, io: Io)
    requires Base64Prefix <= uri
    requires contentType.Some? && contentType.value != []
    requires io.guessExtension(contentType.value).None?
    ensures var r := Resolve(uri, contentType, io);
      && !r.success && r.raised == Some(NoneSuffixError) && r.created == None && r.filepath == None
  {
    PrefixesDisjoint(uri);
  }

  /** Any other URI is fetched; a non-OK reply fails with a message carrying the status code and the reason. */
  lemma RemoteNotOk(uri: string, contentType: Option<string>, io: Io)
    requires !(FilePrefix <= uri) && !(Base64Prefix <= uri)
    requires io.get(uri).Replied? && !io.get(uri).response.Ok()
    ensures var r := Resolve(uri, contentType, io);
      var response := io.get(uri).response;
      var status := IntToDecimal(response.statusCode);
      var at := |FetchFailedPrefix|;
      && !r.success && r.filepath == None && !r.removeFile && r.created == None
      && r.requested == Some(uri) && r.raised == None
      && r.message[at..at + |status|] == status
      && ParseInt(r.message[at..at + |status|]) == Some(response.statusCode)
      && r.message[at + |status| + 4..|r.message| - 1] == response.reason
  {
    IntDecimalRoundTrip(io.get(uri).response.statusCode);
  }

  /** A web reply with status 404 is a failure whose message reads "... (received 404 :: <reason>)". */
  lemma RemoteNotFound(uri: string, contentType: Option<string>, io: Io)
    requires !(FilePrefix <= uri) && !(Base64Prefix <= uri)
    requires io.get(uri).Replied? && io.get(uri).response.statusCode == 404
    ensures var r := Resolve(uri, contentType, io);
      && !r.success && r.filepath == None && r.created == None && r.raised == None
      && r.message == FetchFailedPrefix + "404 :: " + io.get(uri).response.reason + ")"
  {
    var response := io.get(uri).response;
    assert Resolve(uri, contentType, io) == Failed(FetchFailedMessage(404, response.reason), Some(uri));
    NotFoundDigits();
    assert FetchFailedPrefix + "404" + " :: " == FetchFailedPrefix + "404 :: ";
  }

  /** `"%d" % 404` is the three characters "404". */
  lemma NotFoundDigits()
    ensures IntToDecimal(404) == "404"
  {
    assert NatToDecimal(4) == "4";
    assert NatToDecimal(40) == "40";
    assert NatToDecimal(404) == "404";
  }

  /** Any other URI answered OK is saved, body unchanged, to a fresh temporary file that is to be removed. */
  lemma RemoteOk(uri: string, contentType: Option<string>, io: Io)
    requires !(FilePrefix <= uri) && !(Base64Prefix <= uri)
    requires io.get(uri).Replied? && io.get(uri).response.Ok()
    requires io.guessExtension(io.get(uri).response.contentType).Some?
    ensures var r := Resolve(uri, contentType, io);
      var response := io.get(uri).response;
      && r.success && r.removeFile && r.requested == Some(uri) && r.raised == None
      && r.created.Some? && r.created.value.contents == response.content
      && r.created.value.suffix == io.guessExtension(response.contentType).value
      && r.filepath == Some(r.created.value.path)
  {
  }

  /** An OK web reply whose content type has no known extension makes `mkstemp` raise: nothing is written. */
  lemma RemoteOkUnknownExtension(uri: string, contentType: Option<string>, io: Io)
    requires !(FilePrefix <= uri) && !(Base64Prefix <= uri)
    requires io.get(uri).Replied? && io.get(uri).response.Ok()
    requires io.guessExtension(io.get(uri).response.contentType).None?
    ensures var r := Resolve(uri, contentType, io);
      && !r.success && r.raised == Some(NoneSuffixError) && r.created == None && r.filepath == None
      && r.requested == Some(uri)
  {
  }

  /** A `requests.get` that raises ends resolution with that exception: no file, no status message. */
  lemma RemoteRaises(uri: string, contentType: Option<string>, io: Io)
    requires !(FilePrefix <= uri) && !(Base64Prefix <= uri)
    requires io.get(uri).FetchRaised?
    ensures var r := Resolve(uri, contentType, io);
      && !r.success && r.raised == Some(io.get(uri).error) && r.requested == Some(uri)
      && r.created == None && r.filepath == None
  {
  }

  /** The content type only matters to `base64://` URIs. */
  lemma ContentTypeOnlyForBase64(uri: string, c1: Option<string>, c2: Option<string>, io: Io)
    requires !(Base64Prefix <= uri)
    ensures Resolve(uri, c1, io) == Resolve(uri, c2, io)
  {
  }
}
