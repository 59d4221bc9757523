# SMQTK descriptor service and index-label classifier, modelled in Dafny

This project models two small pieces of SMQTK in Dafny and proves properties about them.

1. The request handler `compute_descriptor` of the descriptor web service. A request names a descriptor label and a URI. The handler resolves the URI to a local file through one of three schemes:
   - `file://<path>`: a file on disk;
   - `base64://<payload>`: inline data, which needs a `content_type` query argument and is written to a temporary file;
   - anything else: fetched over HTTP into a temporary file.

   The handler then fetches the descriptor instance for the label from a cache, creating it on first use, and computes the descriptor on the file. It removes any temporary file and replies with a JSON record `{success, message, descriptor, reference_uri}`.
2. `IndexLabelClassifier`. It reads a label file (one label per line, each line stripped) and classifies a vector of confidence values as `dict(zip(labels, vector))`.

Modules:

- `Text` (`text.dfy`) holds the Python string behaviour the code relies on: slicing `s[:n]` / `s[n:]`, `str.strip()`, `"%d"` formatting and iterating a reader line by line. Each is paired with an independent characterisation or an inverse: `IsStripOf` with uniqueness, `ParseInt` with a round trip, and `Concat` with a round trip.
- `UriResolver` (`uri_resolver.dfy`) covers scheme dispatch and the three resolution branches. The filesystem, HTTP client, base64 decoder, MIME table and `tempfile.mkstemp` are passed in as the fields of an `Io` record of functions. The files the resolver creates, the URL it requests and any exception a call raises while resolving are recorded in the `Resolution` it returns.
- `DescriptorCache` (`descriptor_cache.dfy`) is the label-to-instance cache with get-or-create, including a run of consecutive lookups (requests that resolved a file).
- `DescriptorService` (`descriptor_service.dfy`) is the whole handler. `ServeAsWritten` follows the code as it stands. `Serve` corrects the two defects listed under "## Findings". It also tests whether a file path was set at all, where the code tests the path's truthiness (`if filepath:`, server.py:199). The two differ only for the empty path `file://` would give, which `os.path.isfile("")` never accepts.
- `IndexLabel` (`index_label.dfy`) is the classifier.
- `Options` (`options.dfy`) holds `Option`, which stands for Python's `None`-or-value.

Descriptor instances have the type parameter `E`. Vector entries have the type parameter `V`. Building an instance and computing a descriptor are passed in as `Engines`. Computing either yields a vector or raises (`Computed.Raised`).

Where the code and its own documentation differ, the model follows the code:

- The server's docstring (server.py:39-45) gives a JSON record with `success` and `message` as the standard reply. On every resolution failure the code raises instead of producing that record (finding 1).
- The handler's docstring (server.py:130-131) says the temporary file is made for processing. The code removes it only when the descriptor returns, and leaks it when the descriptor raises (finding 2).
- In the code, errors from `new_inst` propagate. The model's constructor is total, so it never fails.
- The code passes the MIME guess to `mkstemp` as `suffix` even when the guess is `None`. The model follows Python 2.7, which this code base targets: there `mkstemp` then raises a `TypeError` before any file is created. Python 3.5 and later would accept `None` and create a file without a suffix.
- The code calls `requests.get` without catching anything. A request that raises (no scheme, host unreachable) ends the handler with that exception.

## Model

| member | source | states |
|---|---|---|
| Text.Head | python/smqtk/web/descriptor_service/server.py:148 | `uri[:n]` is a prefix of `uri` whose length is `n` or the length of `uri`, whichever is smaller |
| Text.Tail | python/smqtk/web/descriptor_service/server.py:150 | `uri[n:]` is the rest of `uri` after `uri[:n]`: the two concatenate back to `uri` |
| Text.HeadIsPrefixTest | python/smqtk/web/descriptor_service/server.py:148-158 | comparing `uri[:len(p)]` with `p` holds exactly when `p` is a prefix of `uri` |
| Text.TrimLeft | python/smqtk/algorithms/classifier/index_label.py:20 | removes exactly the leading whitespace: the result is a suffix, everything dropped is whitespace, and the result does not start with whitespace |
| Text.TrimRight | python/smqtk/algorithms/classifier/index_label.py:20 | removes exactly the trailing whitespace, in the same terms |
| Text.Strip | python/smqtk/algorithms/classifier/index_label.py:20 | `line.strip()` is a contiguous piece of the line with only whitespace around it, and it neither starts nor ends with whitespace |
| Text.StripOfUnique | python/smqtk/algorithms/classifier/index_label.py:20 | at most one string meets that characterisation for a given line |
| Text.StripCharacterized | python/smqtk/algorithms/classifier/index_label.py:20 | a string meets the characterisation exactly when it is `Strip` of the line (both directions) |
| Text.StripIdempotent | python/smqtk/algorithms/classifier/index_label.py:20 | stripping a stripped label changes nothing |
| Text.NatToDecimal | python/smqtk/web/descriptor_service/server.py:195-196 | the `%d` digits of a natural number are non-empty decimal digits with no leading zero |
| Text.NatDecimalRoundTrip | python/smqtk/web/descriptor_service/server.py:195-196 | reading the `%d` digits of a natural number back gives the number |
| Text.NegativeDecimalRoundTrip | python/smqtk/web/descriptor_service/server.py:195-196 | a minus sign followed by the digits of a positive number parses back to its negation |
| Text.IntDecimalRoundTrip | python/smqtk/web/descriptor_service/server.py:195-196 | parsing `%d` of any integer, including a negative one, gives that integer back |
| Text.FirstLineLength | python/smqtk/algorithms/classifier/index_label.py:20-21 | the first line a reader yields runs up to and including the first line feed, or to the end of the text |
| Text.Lines | python/smqtk/algorithms/classifier/index_label.py:20-21 | every line the reader yields is non-empty, every line but the last ends with a line feed, and no line has a line feed before its end |
| Text.ConcatCons | python/smqtk/algorithms/classifier/index_label.py:20-21 | joining a first line and the rest puts that line in front of the joined rest |
| Text.LinesRoundTrip | python/smqtk/algorithms/classifier/index_label.py:20-21 | concatenating the lines gives back the whole file |
| Text.IntToDecimal | python/smqtk/web/descriptor_service/server.py:195-196 | `%d` of a non-negative integer is its decimal digits with no leading zero, and of a negative one a minus sign followed by such digits; `Text.IntDecimalRoundTrip` is its partner, proving that `ParseInt` reads any integer back from it |
| UriResolver.FetchFailedMessage | python/smqtk/web/descriptor_service/server.py:194-196 | the failed-fetch message has the fixed prefix, then the status code's digits, then `" :: "`, then the reason, then `)` |
| UriResolver.SchemeOf | python/smqtk/web/descriptor_service/server.py:148-178 | the `file://` branch is chosen exactly when the URI starts with `file://`, the `base64://` branch exactly when it starts with `base64://`, and the web branch exactly when it starts with neither |
| UriResolver.PrefixesDisjoint | python/smqtk/web/descriptor_service/server.py:148-158 | no URI starts with both prefixes, so exactly one branch applies |
| UriResolver.ToTempFile | python/smqtk/web/descriptor_service/server.py:166-176 | writing data out creates a temporary file that holds exactly those bytes, has the MIME guess as its suffix, becomes the file path and is marked for removal. A MIME type with no known extension makes `mkstemp(suffix=None)` raise a `TypeError` under Python 2.7, with no file created and no path set |
| UriResolver.Resolve | python/smqtk/web/descriptor_service/server.py:139-196 | success holds exactly when a file path is set, and the message then stays the initial one; `remove_file` is set exactly when a temporary file was created, and that file is the path; a network request is made, for the URI itself, exactly on the web branch. When a call raises, that exception's text is the message and no temporary file exists; a `file://` URI never raises |
| UriResolver.LocalFileFound | python/smqtk/web/descriptor_service/server.py:148-156 | `file://` naming an existing file resolves to `uri[7:]` with success still true, nothing to remove, no temporary file and no request |
| UriResolver.LocalFileMissing | python/smqtk/web/descriptor_service/server.py:150-154 | `file://` naming no file fails with "File URI did not point to an existing file on disk." and no file path |
| UriResolver.Base64WithoutContentType | python/smqtk/web/descriptor_service/server.py:158-165 | `base64://` with an absent or empty content type fails with "No content-type with given base64 content." and creates no temporary file |
| UriResolver.Base64Decoded | python/smqtk/web/descriptor_service/server.py:166-176 | `base64://` with a content type of known extension writes the decode of `uri[9:]` to a temporary file. The suffix comes from the MIME guess. That file is the path and is marked for removal |
| UriResolver.UnknownExtensionRaises | python/smqtk/web/descriptor_service/server.py:166-168 | `base64://` with a content type that has no known extension raises the `mkstemp` `TypeError` and creates no file |
| UriResolver.RemoteNotOk | python/smqtk/web/descriptor_service/server.py:191-196 | a web reply with a 4xx or 5xx status (`Response.ok` false) fails with no file path. The status code can be parsed back out of its place in the message, and the reason follows it |
| UriResolver.RemoteNotFound | python/smqtk/web/descriptor_service/server.py:179-196 | a 404 reply is not OK: it fails, creates no file, and the message reads the prefix, then `404 :: `, the reason and `)` |
| UriResolver.NotFoundDigits | python/smqtk/web/descriptor_service/server.py:195-196 | `%d` of 404 is the text `404` |
| UriResolver.RemoteOk | python/smqtk/web/descriptor_service/server.py:178-190 | an OK web reply whose content type has a known extension has its body saved to a temporary file. The suffix comes from the MIME guess for its content type. That file is the path and is marked for removal |
| UriResolver.RemoteOkUnknownExtension | python/smqtk/web/descriptor_service/server.py:180-183 | an OK web reply whose content type has no known extension raises the `mkstemp` `TypeError` after the request, with no file created and no path |
| UriResolver.RemoteRaises | python/smqtk/web/descriptor_service/server.py:179 | a `requests.get` that raises ends resolution with that exception, after the request was made, with no file and no path |
| UriResolver.ContentTypeOnlyForBase64 | python/smqtk/web/descriptor_service/server.py:158-160 | outside the `base64://` branch the content type has no effect |
| DescriptorCache.GetOrCreate | python/smqtk/web/descriptor_service/server.py:205-213 | afterwards the label is cached and the instance returned is its entry. An existing entry is returned with the cache unchanged and nothing built. A missing one is built by `new_inst(label)`. The keys grow by the label only, and every other entry keeps its instance |
| DescriptorCache.GetOrCreateTwice | python/smqtk/web/descriptor_service/server.py:205-213 | a second lookup of the same label returns the same instance, builds nothing and leaves the cache alone |
| DescriptorCache.RunKeepsAndAdds | python/smqtk/web/descriptor_service/server.py:205-213 | after any run of lookups (requests that resolved a file) the cache holds the labels it held before plus those requested, and cached instances are kept |
| DescriptorCache.ConstructedOncePerLabel | python/smqtk/web/descriptor_service/server.py:205-210 | over any run of consecutive lookups (requests that resolved a file) the constructor runs exactly once per label not cached at the start |
| DescriptorService.ComputedMessage | python/smqtk/web/descriptor_service/server.py:216-217 | the success message is the fixed prefix, then the label, then a closing quote |
| DescriptorService.ServeAsWritten | python/smqtk/web/descriptor_service/server.py:139-228 | the handler as it stands. A record is only ever a success record: it carries a descriptor, the computed-message for the label and the request URI. A file is removed only when it was marked for removal and the record was produced. A failed resolution ends in an exception with the cache untouched: the exception raised while resolving when there was one, otherwise the `None.tolist()` error. Once a non-empty path resolves, the cache and the constructed flag are the get-or-create result, and the reply is the success record with the computed vector, or the server error the descriptor raised, whether or not the path is a temporary file; a newly built instance stays cached even when the descriptor raises |
| DescriptorService.AsWrittenRemovesOnlyAfterCompute | python/smqtk/web/descriptor_service/server.py:214-221 | a file is removed exactly when `remove_file` is set and the descriptor returned a vector |
| DescriptorService.AsWrittenSuccessRecord | python/smqtk/web/descriptor_service/server.py:214-228 | when a file resolved and the descriptor returned a vector, the reply is `success=true`, the computed-message, that vector and the request URI, and the cache is the get-or-create result |
| DescriptorService.AsWrittenMissingFileRaises | python/smqtk/web/descriptor_service/server.py:198-226 | for any `file://` URI naming no file, the handler ends in the `None.tolist()` error instead of a failure record, with the cache untouched and nothing removed |
| DescriptorService.AsWrittenLeaksWhenComputeRaises | python/smqtk/web/descriptor_service/server.py:214-221 | when the descriptor raises on a temporary file, the request ends in a server error carrying the descriptor's own error, and the file is not removed |
| DescriptorService.Serve | python/smqtk/web/descriptor_service/server.py:139-228 | the corrected handler always answers with a record that echoes the URI. A descriptor is present exactly when success holds, and a success record carries the computed-message. Every temporary file created is removed. A failed resolution gives `success=false` with the resolver's message (or the text of the exception resolving raised) and no descriptor, and leaves the cache alone. Otherwise the cache is the get-or-create result, an instance is built exactly when the label was not cached before, and the reply is the success record with the vector the descriptor computed on the resolved file, or `success=false` with the descriptor's error as the message |
| DescriptorService.MissingFileReported | python/smqtk/web/descriptor_service/server.py:150-154 | for any `file://` URI naming no file, the corrected handler answers with `success=false`, the missing-file message and no descriptor, with the cache untouched and nothing removed |
| DescriptorService.FetchRaisedReported | python/smqtk/web/descriptor_service/server.py:179 | when `requests.get` raises, the handler as written ends in that exception, and the corrected handler answers `success=false` with its text, the cache untouched and nothing removed |
| DescriptorService.ServeCleansUpWhenComputeRaises | python/smqtk/web/descriptor_service/server.py:214-221 | when the descriptor raises on a temporary file, the corrected handler removes the file and reports the error as a failure record, where the code as written raises it |
| DescriptorService.ServeAgreesWithAsWritten | python/smqtk/web/descriptor_service/server.py:198-228 | wherever the code as written produces a record, the corrected handler produces the same reply, cache and file removals |
| DescriptorService.ServeTwiceReusesInstance | python/smqtk/web/descriptor_service/server.py:205-215 | serving the same resolvable request twice in a row builds no second instance, leaves the cache unchanged and gives the same reply |
| DescriptorService.ServeTwiceLocalFile | python/smqtk/web/descriptor_service/server.py:148-228 | for a `file://` URI naming an existing file, a second request builds nothing, keeps the cache, removes nothing and repeats the reply, whatever else differs in the outside world it sees |
| IndexLabel.New | python/smqtk/algorithms/classifier/index_label.py:15-21 | keeps the label file URI, and its labels are the file's lines, one per line and in order, each meeting the strip characterisation |
| IndexLabel.GetConfig | python/smqtk/algorithms/classifier/index_label.py:23-26 | the configuration has exactly one key, `index_to_label_uri`, and it holds the classifier's label file URI |
| IndexLabel.ConfigRoundTrip | python/smqtk/algorithms/classifier/index_label.py:15-26 | building a classifier from its own configuration, over the same label file, gives the same classifier |
| IndexLabel.LabelsAreStrippedLines | python/smqtk/algorithms/classifier/index_label.py:28-40 | `get_labels` returns one label per line of the file, in order, each the line's `strip()` |
| IndexLabel.LabelsHaveNoLineFeed | python/smqtk/algorithms/classifier/index_label.py:20-21 | no label read from a file contains a line feed |
| IndexLabel.Zip | python/smqtk/algorithms/classifier/index_label.py:59 | `zip` pairs by position and stops at the shorter sequence |
| IndexLabel.DictOf | python/smqtk/algorithms/classifier/index_label.py:59 | the keys of `dict(pairs)` are exactly the pairs' first components |
| IndexLabel.DictOfLastWins | python/smqtk/algorithms/classifier/index_label.py:59 | each key of `dict(pairs)` holds the value of its last pair |
| IndexLabel.DictOfDistinctSize | python/smqtk/algorithms/classifier/index_label.py:59 | with no key repeated, `dict(pairs)` has one entry per pair |
| IndexLabel.Classify | python/smqtk/algorithms/classifier/index_label.py:42-59 | the keys are exactly the labels at positions below `min(len(labels), len(vector))`. A label maps to the vector entry at its last such position |
| IndexLabel.ClassifyDistinct | python/smqtk/algorithms/classifier/index_label.py:59 | with distinct labels, every label below that bound maps to the entry at its own position, and there are exactly that many keys |

## Findings

| source | as written | input that shows it | evidently intended | confidence | as-written member | corrected member |
|---|---|---|---|---|---|---|
| python/smqtk/web/descriptor_service/server.py:198-226 | when no file is resolved, `descriptor` stays `None` and building the reply calls `descriptor.tolist()`, which raises | `file:///no/such.png` where no such file exists | the documented record with `success` false, the failure message and no descriptor | high; not executed | DescriptorService.AsWrittenMissingFileRaises | DescriptorService.Serve |
| python/smqtk/web/descriptor_service/server.py:214-221 | `os.remove` runs only after `compute_descriptor` returns, so an exception from the descriptor leaves the temporary file behind | a `base64://` URI with a content type, on a descriptor that raises for that data | the temporary file is removed whatever the descriptor does | medium; not executed | DescriptorService.AsWrittenLeaksWhenComputeRaises | DescriptorService.ServeCleansUpWhenComputeRaises |

## Left out

- Flask app construction, routing, `run` and configuration loading (server.py:57-95, 230-239) are framework plumbing and environment/file I/O. The `RuntimeError` at line 90 cannot be reached, because the default configuration always counts as loaded.
- The `list_ingest_labels` endpoint (server.py:106-111) lists labels from an external configuration registry that is not part of this model.
- Real I/O is not modelled. `os.path.isfile`, `requests.get`, base64 decoding, `MIMETYPES.guess_extension` and `tempfile.mkstemp` are the uninterpreted fields of `Io`. File writes and `os.remove` are recorded as the `created` and `removed` values instead of being performed.
- UriResolver.Resolve: treats base64 decoding as total. A malformed payload, which raises in the code after the temporary file has been created, is not modelled.
- UriResolver.Resolve: reads the content-type header of an OK web reply as always present. The `KeyError` the code raises when it is missing is not modelled.
- UriResolver.Resolve: the text of an exception `requests.get` raises is an abstract string supplied by `Io.get`; which network conditions raise is not modelled.
- DescriptorService.ServeTwiceReusesInstance: `Io.mkstemp` is a function of the suffix, so both requests get the same temporary path; for `base64://` and web URIs the equal replies rest on that, while the real `mkstemp` names a new file each call. `DescriptorService.ServeTwiceLocalFile` states the repeat for `file://` URIs without depending on it.
- DescriptorService.Serve: the descriptor constructor (`ContentDescriptorConfiguration.new_inst`) is total. A constructor that raises for an unknown label is not modelled.
- The `RLock` and concurrent requests are not modelled. The model is sequential, so it says nothing about at-most-once construction when requests run in parallel. The check at line 205 is outside the lock, so the code does not guarantee that.
- Logging and `SimpleTimer` have no effect on results.
- `from_uri(...).to_buffered_reader()` is not modelled. The classifier takes the file's content or its lines as input, as characters rather than bytes.
- `is_usable` always returns true and is not modelled.
- IndexLabel.GetLabels: the source returns a fresh list so that callers cannot change the classifier. Dafny sequences are values, so that isolation holds without needing a proof, and `GetLabels` carries no contract of its own.
- Text.IsSpace: follows `strip()` on byte strings (space, tab, line feed, carriage return, vertical tab, form feed). It does not cover the wider Unicode whitespace of Python 3 `str`.
- Vector entries are an opaque type. Floating-point values and `.tolist()` conversion are not modelled.
