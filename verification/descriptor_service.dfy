/**
 * The request handler `compute_descriptor` of the descriptor service
 * (python/smqtk/web/descriptor_service/server.py, lines 114-228): resolve
 * the URI, fetch or create the descriptor instance for the label, compute
 * the descriptor, remove the temporary file, reply with a JSON record.
 *
 * `ServeAsWritten` follows the handler as it stands. Two of its paths do
 * not do what the handler promises (see the README's findings): the
 * server's docstring (server.py, lines 39-45) describes a JSON record with
 * a `success` flag and a `message` as the standard reply, yet every
 * resolution failure ends in an exception instead of that record; and a
 * temporary file, which the handler's docstring (lines 130-131) says is
 * made only for processing, is left behind when the descriptor raises.
 * `Serve` is the handler with both corrected.
 */
module DescriptorService {
  import opened Options
  import opened Text
  import opened UriResolver
  import opened DescriptorCache

  /** Running a descriptor instance on a file: the vector it computes, or the exception it raises. */
  datatype Computed<V> = Vector(values: seq<V>) | Raised(error: string)

  /** The descriptor machinery: building an instance for a label, and computing with an instance on a file path. */
  datatype Engines<!E, V> = Engines(newInst: string -> E, compute: (E, string) -> Computed<V>)

  /**
   * What the client receives: the JSON record `{success, message,
   * descriptor, reference_uri}`, or the server error an uncaught exception
   * becomes.
   */
  datatype Reply<V> =
    | Json(success: bool, message: string, descriptor: Option<seq<V>>, referenceUri: string)
    | ServerError(error: string)

  /** One served request: the reply, the cache afterwards, whether an instance was built, how the URI resolved, and the file removed. */
  datatype Served<E, V> = Served(
    reply: Reply<V>,
    cache: map<string, E>,
    constructed: bool,
    resolution: Resolution,
    removed: Option<string>)

  /** The error of calling `.tolist()` on the `None` that `descriptor` still holds when no file was resolved. */
  const NoneHasNoTolist: string := "'NoneType' object has no attribute 'tolist'"

  const ComputedPrefix: string := "Descriptor computed of type '"

  /** The success message, `"Descriptor computed of type '%s'" % label`. */
  function ComputedMessage(descriptorLabel: string): (m: string)
    ensures ComputedPrefix <= m && |m| == |ComputedPrefix| + |descriptorLabel| + 1
    ensures m[|ComputedPrefix|..|m| - 1] == descriptorLabel && m[|m| - 1] == '\''
  {
    ComputedPrefix + descriptorLabel + "'"
  }

  /** The request handler as it stands. */
  function ServeAsWritten<E, V>(cache: map<string, E>, descriptorLabel: string, uri: string,
                                contentType: Option<string>, io: Io, engines: Engines<E, V>): (s: Served<E, V>)
    ensures s.resolution == Resolve(uri, contentType, io)
    ensures s.reply.Json? ==> && s.reply.success && s.reply.descriptor.Some?
                              && s.reply.message == ComputedMessage(descriptorLabel)
                              && s.reply.referenceUri == uri
    ensures s.removed.Some? ==> s.reply.Json? && s.resolution.removeFile && s.removed == s.resolution.filepath
    ensures s.resolution.raised.Some? ==> s.reply == ServerError(s.resolution.raised.value)
    ensures !s.resolution.success ==> && s.reply.ServerError? && s.cache == cache && !s.constructed
                                      && (s.resolution.raised.None? ==> s.reply == ServerError(NoneHasNoTolist))
    ensures s.resolution.success && s.resolution.filepath.value != [] ==>
      var lookup := GetOrCreate(cache, descriptorLabel, engines.newInst);
      var c := engines.compute(lookup.engine, s.resolution.filepath.value);
      && s.cache == lookup.cache && s.constructed == lookup.constructed
      && s.reply == if c.Vector? then Json(true, ComputedMessage(descriptorLabel), Some(c.values), uri)
                    else ServerError(c.error)
  {
    var res := Resolve(uri, contentType, io);
    if res.raised.Some? then
      Served(ServerError(res.raised.value), cache, false, res, None)
    else if res.filepath.Some? && res.filepath.value != [] then
      var path := res.filepath.value;
      var lookup := GetOrCreate(cache, descriptorLabel, engines.newInst);
      match engines.compute(lookup.engine, path)
      case Raised(e) =>
        Served(ServerError(e), lookup.cache, lookup.constructed, res, None)
      case Vector(v) =>
        Served(Json(res.success, ComputedMessage(descriptorLabel), Some(v), uri),
               lookup.cache, lookup.constructed, res, if res.removeFile then Some(path) else None)
    else
      Served(ServerError(NoneHasNoTolist), cache, false, res, None)
  }

  /**
   * The request handler with failures reported in the JSON record and the
   * temporary file removed whether or not the descriptor raises. An
   * exception raised while resolving (the web request failing outright, a
   * MIME type without a known extension) is reported the same way, its text
   * as the message.
   */
  function Serve<E, V>(cache: map<string, E>, descriptorLabel: string, uri: string,
                       contentType: Option<string>, io: Io, engines: Engines<E, V>): (s: Served<E, V>)
    ensures s.resolution == Resolve(uri, contentType, io)
    ensures s.reply.Json? && s.reply.referenceUri == uri
    ensures s.reply.success <==> s.reply.descriptor.Some?
    ensures s.reply.success ==> s.reply.message == ComputedMessage(descriptorLabel)
    ensures s.removed == if s.resolution.created.Some? then Some(s.resolution.created.value.path) else None
    ensures !s.resolution.success ==> && s.reply == Json(false, s.resolution.message, None, uri)
                                      && s.cache == cache && !s.constructed
    ensures s.resolution.success ==> s.cache == GetOrCreate(cache, descriptorLabel, engines.newInst).cache
    ensures s.resolution.success ==> s.constructed == (descriptorLabel !in cache)
    ensures s.resolution.success ==>
      var c := engines.compute(GetOrCreate(cache, descriptorLabel, engines.newInst).engine,
                               s.resolution.filepath.value);
      s.reply == if c.Vector? then Json(true, ComputedMessage(descriptorLabel), Some(c.values), uri)
                 else Json(false, c.error, None, uri)
  {
    var res := Resolve(uri, contentType, io);
    match res.filepath
    case None =>
      Served(Json(false, res.message, None, uri), cache, false, res, None)
    case Some(path) =>
      var lookup := GetOrCreate(cache, descriptorLabel, engines.newInst);
      var removed := if res.removeFile then Some(path) else None;
      match engines.compute(lookup.engine, path)
      case Raised(e) =>
        Served(Json(false, e, None, uri), lookup.cache, lookup.constructed, res, removed)
      case Vector(v) =>
        Served(Json(true, ComputedMessage(descriptorLabel), Some(v), uri),
               lookup.cache, lookup.constructed, res, removed)
  }

  // ---------------------------------------------------------------------
  // The handler as it stands

  /**
   * A file is removed exactly when resolution created a temporary one and
   * the descriptor came back with a vector.
   */
  lemma AsWrittenRemovesOnlyAfterCompute<E, V>(cache: map<string, E>, descriptorLabel: string, uri: string,
                                               contentType: Option<string>, io: Io, engines: Engines<E, V>)
    ensures var s := ServeAsWritten(cache, descriptorLabel, uri, contentType, io, engines);
      var engine := GetOrCreate(cache, descriptorLabel, engines.newInst).engine;
      s.removed.Some? <==> (&& s.resolution.removeFile
                            && engines.compute(engine, s.resolution.filepath.value).Vector?)
  {
  }

  /** On success the record carries the vector computed on the resolved file and echoes the URI. */
  lemma AsWrittenSuccessRecord<E, V>(cache: map<string, E>, descriptorLabel: string, uri: string,
                                     contentType: Option<string>, io: Io, engines: Engines<E, V>)
    requires Resolve(uri, contentType, io).success && Resolve(uri, contentType, io).filepath.value != []
    requires engines.compute(GetOrCreate(cache, descriptorLabel, engines.newInst).engine,
                             Resolve(uri, contentType, io).filepath.value).Vector?
    ensures var s := ServeAsWritten(cache, descriptorLabel, uri, contentType, io, engines);
      var lookup := GetOrCreate(cache, descriptorLabel, engines.newInst);
      && s.reply == Json(true, ComputedMessage(descriptorLabel),
                         Some(engines.compute(lookup.engine, s.resolution.filepath.value).values), uri)
      && s.cache == lookup.cache
  {
  }

  /** A request whose URI names no file on disk: the handler raises instead of answering with a failure record. */
  lemma AsWrittenMissingFileRaises<E, V>(cache: map<string, E>, descriptorLabel: string, uri: string,
                                         contentType: Option<string>, io: Io, engines: Engines<E, V>)
    requires FilePrefix <= uri && !io.isFile(uri[|FilePrefix|..])
    ensures var s := ServeAsWritten(cache, descriptorLabel, uri, contentType, io, engines);
      s.reply == ServerError(NoneHasNoTolist) && s.cache == cache && s.removed == None
  {
    LocalFileMissing(uri, contentType, io);
  }

  /** The descriptor raising on a decoded `base64://` payload leaves its temporary file behind. */
  lemma AsWrittenLeaksWhenComputeRaises<E, V>(cache: map<string, E>, descriptorLabel: string, uri: string,
                                              contentType: Option<string>, io: Io, engines: Engines<E, V>)
    requires Resolve(uri, contentType, io).created.Some?
    requires engines.compute(GetOrCreate(cache, descriptorLabel, engines.newInst).engine,
                             Resolve(uri, contentType, io).filepath.value).Raised?
    ensures var s := ServeAsWritten(cache, descriptorLabel, uri, contentType, io, engines);
      && s.reply == ServerError(engines.compute(GetOrCreate(cache, descriptorLabel, engines.newInst).engine,
                                                Resolve(uri, contentType, io).filepath.value).error)
      && s.resolution.created.Some? && s.removed == None
  {
  }

  // ---------------------------------------------------------------------
  // The corrected handler

  /** A URI naming no file on disk is reported as a failure record with the missing-file message and no descriptor. */
  lemma MissingFileReported<E, V>(cache: map<string, E>, descriptorLabel: string, uri: string,
                                  contentType: Option<string>, io: Io, engines: Engines<E, V>)
    requires FilePrefix <= uri && !io.isFile(uri[|FilePrefix|..])
    ensures var s := Serve(cache, descriptorLabel, uri, contentType, io, engines);
      s.reply == Json(false, FileMissingMessage, None, uri) && s.cache == cache && s.removed == None
  {
    LocalFileMissing(uri, contentType, io);
  }

  /** A web request that raises ends the handler as it stands with that exception; the corrected one reports it. */
  lemma FetchRaisedReported<E, V>(cache: map<string, E>, descriptorLabel: string, uri: string,
                                  contentType: Option<string>, io: Io, engines: Engines<E, V>)
    requires !(FilePrefix <= uri) && !(Base64Prefix <= uri) && io.get(uri).FetchRaised?
    ensures var s := ServeAsWritten(cache, descriptorLabel, uri, contentType, io, engines);
      var s' := Serve(cache, descriptorLabel, uri, contentType, io, engines);
      && s.reply == ServerError(io.get(uri).error)
      && s'.reply == Json(false, io.get(uri).error, None, uri)
      && s'.cache == cache && s'.removed == None
  {
    RemoteRaises(uri, contentType, io);
  }

  /** Every temporary file is removed, including when the descriptor raises; its error becomes the message. */
  lemma ServeCleansUpWhenComputeRaises<E, V>(cache: map<string, E>, descriptorLabel: string, uri: string,
                                             contentType: Option<string>, io: Io, engines: Engines<E, V>)
    requires Resolve(uri, contentType, io).created.Some?
    requires engines.compute(GetOrCreate(cache, descriptorLabel, engines.newInst).engine,
                             Resolve(uri, contentType, io).filepath.value).Raised?
    ensures var s := ServeAsWritten(cache, descriptorLabel, uri, contentType, io, engines);
      var s' := Serve(cache, descriptorLabel, uri, contentType, io, engines);
      var e := engines.compute(GetOrCreate(cache, descriptorLabel, engines.newInst).engine,
                               s.resolution.filepath.value).error;
      && s'.removed == Some(s'.resolution.created.value.path)
      && s'.reply == Json(false, e, None, uri)
      && s.reply == ServerError(e)
  {
  }

  /** Where the handler as it stands answers with a record, the corrected one answers the same and has the same effects. */
  lemma ServeAgreesWithAsWritten<E, V>(cache: map<string, E>, descriptorLabel: string, uri: string,
                                       contentType: Option<string>, io: Io, engines: Engines<E, V>)
    ensures var s := ServeAsWritten(cache, descriptorLabel, uri, contentType, io, engines);
      s.reply.Json? ==> s == Serve(cache, descriptorLabel, uri, contentType, io, engines)
  {
  }

  /**
   * Serving the same request twice in a row: the second reuses the cached
   * instance, builds nothing, leaves the cache as it was and gives the
   * same reply, provided the descriptor is a function of its input.
   */
  lemma ServeTwiceReusesInstance<E, V>(cache: map<string, E>, descriptorLabel: string, uri: string,
                                       contentType: Option<string>, io: Io, engines: Engines<E, V>)
    requires Resolve(uri, contentType, io).success
    ensures var first := Serve(cache, descriptorLabel, uri, contentType, io, engines);
      var second := Serve(first.cache, descriptorLabel, uri, contentType, io, engines);
      && !second.constructed
      && second.cache == first.cache
      && second.reply == first.reply
  {
    GetOrCreateTwice(cache, descriptorLabel, engines.newInst);
  }

  /**
   * For a `file://` URI the repeated reply does not depend on temporary
   * file names: the second request may see any other outside world in which
   * the same file exists, and it still reuses the instance and repeats the
   * reply.
   */
  lemma ServeTwiceLocalFile<E, V>(cache: map<string, E>, descriptorLabel: string, uri: string,
                                  contentType: Option<string>, io: Io, io': Io, engines: Engines<E, V>)
    requires FilePrefix <= uri && io.isFile(uri[|FilePrefix|..]) && io'.isFile(uri[|FilePrefix|..])
    ensures var first := Serve(cache, descriptorLabel, uri, contentType, io, engines);
      var second := Serve(first.cache, descriptorLabel, uri, contentType, io', engines);
      && !second.constructed
      && second.cache == first.cache
      && second.reply == first.reply
      && second.removed == None
  {
    LocalFileFound(uri, contentType, io);
    LocalFileFound(uri, contentType, io');
    GetOrCreateTwice(cache, descriptorLabel, engines.newInst);
  }
}
