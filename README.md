# A verified model of the faculty client library

`faculty` is the Python client library of the Faculty data science
platform, with its predecessor package `sherlockml`. Most of it wraps HTTP
endpoints. Beneath those wrappers sit self-contained decisions. This project
models those decisions in Dafny and proves what the code promises about
them. The environment, the file system, the clock and every service
response are inputs to the model.

The model falls into seven groups.

- **Uploads and retries.**
  - `Transfer` covers `faculty/datasets/transfer.py`: re-chunking a byte stream into parts and the S3 part size under the 10000-part limit. It also covers S3 part numbering and the GCS `Content-Range` headers of section 4.2 of RFC 7233.
  - `Retries` covers the bounded retry loop of `faculty/datasets/retries.py`.
  - `Bytes` is the byte-string algebra these use.
- **Dataset paths and listings.**
  - `PosixPath` is a model of `posixpath.join`, `normpath`, `dirname` and `relpath`.
  - `DatasetsUtil` is path rationalisation and relative paths. The datasets package and `sherlockml` share it.
  - `FacultyDatasets` covers `ls`, the hidden-file filter, `_isdir`/`_isfile`, `rmdir`, `mv` and the `get` guard.
  - `SherlockPath` covers bucket keys and parent directories.
  - `SherlockDatasets` covers the `sherlockml` listing and the guards.
  - `SherlockDatasetsSession` covers the bucket cache, the secrets TTL cache and the polling for verified secrets.
- **Configuration.**
  - `FacultyConfig`, `SherlockConfig` and `CliConfig` cover profile loading and the precedence of arguments, environment variables and the credentials file.
  - `Truthiness` is Python's `or` on optional strings, where `""` and `None` are both falsy.
  - `Urls` is the service URL as `urlunsplit` builds it. This is `_service_url` in `faculty/session/__init__.py` and in `sherlockml/clients/base.py`, which are the same code.
- **Tokens and sessions.**
  - `AccessTokens` covers the token store and the memory and file caches.
  - `Sessions` covers `Session.access_token` and `get_session` memoisation, in both the current and the older session module.
  - `FacultyAuth`, `SherlockAuth` and `CliAuth` cover the auth hooks and the command line's token cache.
  - `Http` holds the bearer header of section 2.1 of RFC 6750 and the prepared request it is set on.
- **HTTP errors and request shaping.**
  - `FacultyBase` and `SherlockBase` map status codes to error classes and read error bodies.
  - `ObjectClient` and `PercentEncoding` cover object-store endpoints, which are percent-encoded as in sections 2.1 and 2.3 of RFC 3986 with `/` kept. They also cover the flags, the optional parameters and the error-code mapping.
  - `Json` is the JSON value type.
- **Experiments.**
  - `ExperimentModels` and `ExperimentSchemas` cover the filter and sort trees, the discrete-operator rule and their wire form.
  - `ExperimentClient` covers the requests each client operation builds.
  - `ExperimentRuns` covers the pagination-following `query` loop.
  - The module `faculty/clients/experiment.py` and the package `faculty/clients/experiment/` declare the same schemas and client operations, and the model follows the module, which the rows cite.
    - The two are written for different marshmallow versions. The module's hooks take `**kwargs` and its param field calls `make_error` (marshmallow 3). The package's hooks take no `**kwargs` and its param field calls `self.fail` (marshmallow 2).
    - A package directory takes precedence over a module of the same name, so `import faculty.clients.experiment` loads the package. Under marshmallow 3 its hooks raise, as "## Left out" records.
  - `faculty/experiment.py` and `faculty/experiments.py` hold the same query loop, so one model covers both.
- **Small parsers, validators and state machines.**
  - `CliParse` covers run identifiers and escaped parameter strings.
  - `Shell` covers `quote`, with a shell-word reader as its inverse.
  - `ServerSentEvents` and `CliClient` cover event-stream framing, the CLI client's requests, and the server agent's resources stream with its schema loads.
  - `Hound` covers executions read from JSON, the CLI's resources stream, and log de-duplication across reconnects.
  - `VersionFormats` and `EnvironmentSchemas` cover version identifiers and environment specifications.
  - `Jobs`, `Servers` and `Galleon` cover instance-size rules and payloads.
  - `Workspace` covers file-tree nodes.
  - `Notifications` covers publication errors and completion waiting.
  - `UtilResolvers`, `Resolvers` and `Context` cover project resolution and the platform context.

Three further points about the model:

- Raised exceptions are `Err` values of a `Result`, and Python's `None` is `None` of an `Option`.
- Code that updates state in place is modelled as classes and methods, each with a specification function.
- Loops are `while` loops with their invariants.

## Model

| member | source | states |
|---|---|---|
| Transfer.Chunks | faculty/datasets/transfer.py:273-288 | the parts of the re-chunked data; there is always at least one |
| Transfer.ChunksFlatten | faculty/datasets/transfer.py:273-288 | concatenating the parts gives back exactly the data |
| Transfer.ChunksFull | faculty/datasets/transfer.py:278-285 | every part but the last is exactly `chunk_size` bytes |
| Transfer.ChunksLast | faculty/datasets/transfer.py:287-288 | the last part has at most `chunk_size` bytes and is empty only when the data is empty |
| Transfer.ChunksLength | faculty/datasets/transfer.py:278-288 | the data length is (parts − 1) · `chunk_size` plus the length of the last part |
| Transfer.ChunksSizes | faculty/datasets/transfer.py:278-288 | the full-parts, last-part and length facts together |
| Transfer.ChunksCount | faculty/datasets/transfer.py:273-288 | the number of parts is max(1, ceil(n / `chunk_size`)) |
| Transfer.ChunksFiveAndOne | faculty/datasets/transfer.py:287-288 | 5 · `chunk_size` + 1 bytes give six parts, the last of one byte |
| Transfer.ChunksOfFull | faculty/datasets/transfer.py:278-288 | full parts followed by a short non-empty tail are exactly the parts of their concatenation |
| Transfer.ChunksOfFullOnly | faculty/datasets/transfer.py:278-288 | a non-empty list of full parts re-chunks to itself |
| Transfer.RechunkData | faculty/datasets/transfer.py:273-288 | the generator loop over the input pieces yields exactly `Chunks` of their concatenation |
| Transfer.LabelAsLast | faculty/datasets/transfer.py:291-301 | every chunk is paired with whether it is the final one, in order; no chunks give one empty final chunk |
| Transfer.RechunkAndLabelAsLast | faculty/datasets/transfer.py:291-301 | the chunks of `_rechunk_data` in order, `is_last` true for exactly the final one |
| Transfer.ChunkSize | faculty/datasets/transfer.py:304-311 | the part size is at least 5 MiB, and exactly 5 MiB when the size is unknown or the provider is not S3 |
| Transfer.CountAtMostLimit | faculty/datasets/transfer.py:307-309 | a part size no smaller than ceil(size / 10000) needs at most 10000 parts |
| Transfer.ChunkSizePartLimit | faculty/datasets/transfer.py:304-311 | for S3 with a known size, the part size needs at most 10000 parts and is the smallest such size of at least 5 MiB |
| Transfer.S3PartsWithinLimit | faculty/datasets/transfer.py:304-311 | an S3 upload of known size is cut into at most 10000 parts |
| Transfer.Parts | faculty/datasets/transfer.py:224-229 | `completed_parts` after n uploads: n parts numbered 1..n in order |
| Transfer.S3Upload | faculty/datasets/transfer.py:199-232 | part n (from 1) is the n-th chunk; the upload completes with every part in order iff no PUT status raises, and otherwise stops at the first status that raises |
| Transfer.GcsChunkHeaders | faculty/datasets/transfer.py:251-259 | `Content-Length` is the chunk length; `Content-Range` is present iff the offset is non-zero or the chunk is non-empty, and then runs from the offset to offset + length − 1 with the given total |
| Transfer.HeaderMap | faculty/datasets/transfer.py:252-259 | the header dictionary carries `Content-Length` in decimal, and `Content-Range` exactly when a range is due |
| Transfer.ParseNatText | faculty/datasets/transfer.py:257-258 | a decimal number written by the header reads back as that number |
| Transfer.ParseTotalText | faculty/datasets/transfer.py:257-258 | the total (`*` or a size) reads back as itself and holds neither `-` nor `/` |
| Transfer.ParseContentRangeText | faculty/datasets/transfer.py:257-258 | the `bytes first-last/total` value reads back as the range it was written from |
| Transfer.ChunksTotalLength | faculty/datasets/transfer.py:237-248 | the chunk lengths add up to the data length |
| Transfer.GcsRangeFull | faculty/datasets/transfer.py:237-248 | a request before the last states total `*` and covers bytes i·cs to (i+1)·cs − 1 |
| Transfer.GcsRangeLast | faculty/datasets/transfer.py:241-242 | the last request of non-empty data ends at the final byte and states the full byte count |
| Transfer.GcsRangeAt | faculty/datasets/transfer.py:237-259 | the range of any request of non-empty data, by whether it is the last |
| Transfer.GcsEmptyData | faculty/datasets/transfer.py:255-259 | empty data is sent as one request without a `Content-Range` |
| Transfer.GcsRangesTile | faculty/datasets/transfer.py:237-259 | for non-empty data the ranges tile it: the first starts at 0, each starts right after the previous, and only the last, ending at the final byte, states the full length |
| Transfer.GcsRequests | faculty/datasets/transfer.py:237-248 | one request per chunk when nothing fails |
| Transfer.GcsStep | faculty/datasets/transfer.py:240-248 | one loop step: the running `start_index` and the total computed from it give that request's headers |
| Transfer.GcsSend | faculty/datasets/transfer.py:237-248 | the requests sent are a prefix of `GcsRequests`; all are sent iff no status raises, else the upload stops at the first that does |
| Transfer.GcsUpload | faculty/datasets/transfer.py:235-248 | `_gcs_upload` of the re-chunked, labelled content, with the same outcome as `GcsSend` |
| Transfer.UploadStream | faculty/datasets/transfer.py:173-196 | the provider chooses the protocol and the part size; the S3 outcome is `_s3_upload`'s (the parts PUT are the chunks numbered from 1, completion with every part exactly when no PUT raised, else the status that raised) and the GCS outcome is `_gcs_upload`'s (the requests are a prefix of the labelled chunks, complete exactly when no PUT raised) |
| Retries.MaybeRetry | faculty/datasets/retries.py:22-41 | the response returned is the last of `calls` requests; every earlier one was retryable, the last is not retryable or the attempts ran out, and one delay of min(backoff, `max_backoff`) is waited before each retry; no retryable codes means one call |
| Retries.CallsFrom | faculty/datasets/retries.py:31-39 | the number of requests the loop makes, counted from attempt k: at least one more |
| Retries.CallsFromStops | faculty/datasets/retries.py:33-35 | the count stops exactly at the loop's exit condition |
| Retries.CallsUnique | faculty/datasets/retries.py:33-35 | any count meeting the exit condition is that count, so the loop's count is determined |
| Retries.AllRetryable | faculty/datasets/retries.py:24-39 | when every response is retryable, `max_attempts` + 1 requests are made |
| Retries.MaybeRetryAsWritten | faculty/datasets/retries.py:31-46 | as written, a retryable first response with a retry allowed raises on the first backoff; any other first response is returned |
| Retries.RetryAsWrittenRaises | faculty/datasets/retries.py:33-46 | where every response is retryable and `max_attempts >= 1`, the code as written raises while the intended loop makes `max_attempts + 1` requests |
| DatasetsUtil.GetRelativePath | faculty/datasets/util.py:35-47 | fails exactly when the rationalised directory does not start, as text, with the rationalised parent |
| DatasetsUtil.JoinRoot | faculty/datasets/util.py:25 | joining onto `/` keeps an absolute path and roots a relative one |
| DatasetsUtil.RenderTrailingSlash | faculty/datasets/util.py:27-30 | a normalised path ends with `/` exactly when it has no components |
| DatasetsUtil.NormPathForm | faculty/datasets/util.py:27 | `normpath` maps each rationalised form to its leading slashes and components |
| DatasetsUtil.NormPathShapeAbsolute | faculty/datasets/util.py:25-27 | `normpath` of an absolute path keeps one or two leading slashes and normal components |
| DatasetsUtil.RationaliseShape | faculty/datasets/util.py:22-32 | every result has one or two leading slashes, normal components, and a trailing slash iff the joined input had one |
| DatasetsUtil.RationaliseAbsolute | faculty/datasets/util.py:22-32 | every rationalised path is absolute |
| DatasetsUtil.RationaliseTrailingSlash | faculty/datasets/util.py:29-30 | the result ends with `/` exactly when the joined input did or the result is the root |
| DatasetsUtil.RationaliseForm | faculty/datasets/util.py:22-32 | every rationalised form is a fixed point |
| DatasetsUtil.RationaliseIdempotent | faculty/datasets/util.py:22-32 | rationalising twice is rationalising once |
| DatasetsUtil.RationaliseFixedExamples | faculty/datasets/util.py:22-32 | `/`, `/path` and `/path/` come back unchanged |
| DatasetsUtil.RationaliseRelativeExamples | faculty/datasets/util.py:25 | `""` becomes `/` and `path` becomes `/path` |
| DatasetsUtil.RationaliseDotExamples | faculty/datasets/util.py:25-30 | `./` becomes `/` and `./path/` becomes `/path/` |
| DatasetsUtil.RationaliseDotComp | faculty/datasets/util.py:25-30 | a leading `./` disappears from any one-component directory path |
| DatasetsUtil.GetRelativePathBelow | faculty/datasets/util.py:35-47 | below its parent, a directory's relative path is its remaining components joined by `/` |
| DatasetsUtil.GetRelativePathSelf | faculty/datasets/util.py:35-47 | a directory relative to itself is `.` |
| DatasetsUtil.GetRelativePathTextPrefix | faculty/datasets/util.py:40 | the prefix test is on text: `/ab` passes as below `/a` and comes back as `../ab` |
| DatasetsUtil.GetRelativePathSibling | faculty/datasets/util.py:40-45 | any sibling whose name extends the parent's name as text is accepted and reached through `..` |
| DatasetsUtil.RelPathSibling | faculty/datasets/util.py:45 | `relpath` between two sibling components climbs one level |
| PosixPath.JoinAllAppend | faculty/datasets/util.py:25 | `posixpath.join` of several pieces is the join of the joins |
| PosixPath.ResolveNormal | faculty/datasets/util.py:27 | whatever the input, `normpath`'s component loop yields normal components (no empty, `.` or misplaced `..`) |
| PosixPath.ResolveIdentity | faculty/datasets/util.py:27 | on components that are already normal the loop changes nothing |
| PosixPath.ResolveAppend | faculty/datasets/util.py:27 | the loop over two lists is the loop over the second from the result of the first |
| PosixPath.ResolveTrailingEmpty | faculty/datasets/util.py:27 | a trailing slash is ignored by the loop |
| PosixPath.NormPathShape | faculty/datasets/util.py:27 | `normpath` keeps at most two leading slashes, gives normal components, and gives `.` for an empty relative result |
| PosixPath.NormCompsRender | faculty/datasets/util.py:27 | a normalised path reads back as its own slashes and components |
| PosixPath.NormPathDot | faculty/datasets/util.py:27 | `normpath(".")` is `.` |
| PosixPath.NormPathIdempotent | faculty/datasets/util.py:27 | `normpath` is idempotent |
| PosixPath.RFindAfter | faculty/datasets/__init__.py:182 | one past the last separator, within the string |
| PosixPath.DirnameLast | faculty/datasets/__init__.py:182 | `dirname` cuts at the last separator and strips the slashes before it unless only slashes remain |
| PosixPath.DirnameRender | faculty/datasets/__init__.py:182 | the parent of a normal absolute path is the path of all but its last component |
| PosixPath.DirnameRenderOne | faculty/datasets/__init__.py:182 | the parent of a one-component absolute path is `/` |
| PosixPath.NonEmptyRender | faculty/datasets/util.py:45 | the non-empty fields of a normal path are its components |
| PosixPath.CommonPrefixLength | faculty/datasets/util.py:45 | the length of the longest common prefix of two component lists: they agree up to it and differ right after |
| PosixPath.JoinAllPlain | faculty/datasets/util.py:45 | joining slash-free components with `posixpath.join` writes them separated by `/` |
| FacultyDatasets.FirstFinal | faculty/datasets/__init__.py:66-70 | the first page without a next token, if any; every page before it has one |
| FacultyDatasets.ListAll | faculty/datasets/__init__.py:63-70 | the first request carries no token and each later one the token of the page before; listing completes iff some page has no next token, and then the paths are those of every page up to it, in order |
| FacultyDatasets.FirstFinalAt | faculty/datasets/__init__.py:66 | the first page without a token is the one where listing stops |
| FacultyDatasets.HiddenIffDotAfterSlash | faculty/datasets/__init__.py:75-79 | a path is hidden iff it starts with `.` or has `.` right after some `/` |
| FacultyDatasets.NonHidden | faculty/datasets/__init__.py:75-79 | the paths kept are exactly those with no `.`-prefixed element, in order |
| FacultyDatasets.NonHiddenAppend | faculty/datasets/__init__.py:70-79 | filtering the pages together is filtering them one by one |
| FacultyDatasets.Visible | faculty/datasets/__init__.py:72-80 | with `show_hidden` every path; otherwise exactly the paths with no `.` at the start or after a `/` |
| FacultyDatasets.LsContinuationExample | faculty/datasets/__init__.py:75-79 | of `.test-hidden-path` and `test-path` only the second is shown |
| FacultyDatasets.AsDirectory | faculty/datasets/__init__.py:138-140 | the path with a trailing `/` added only when it has none |
| FacultyDatasets.IsFile | faculty/datasets/__init__.py:150-178 | a directory is never a file; otherwise a path is a file iff its rationalised form is listed under it |
| FacultyDatasets.GetFileGuard | faculty/datasets/__init__.py:239-247 | downloading a file is refused exactly when the local path ends in `/` |
| FacultyDatasets.Mv | faculty/datasets/__init__.py:337-352 | moving a path onto itself does nothing; otherwise it is a recursive copy then a recursive remove of the same two paths |
| FacultyDatasets.Rmdir | faculty/datasets/__init__.py:441-459 | removed iff the listing is exactly the `/`-terminated key; "Not a directory" iff exactly the file key; "No such file or directory" iff the directory key is absent; "Directory is not empty" otherwise |
| FacultyDatasets.RmdirEitherSpelling | faculty/datasets/__init__.py:441-451 | an empty directory is removed as its `/`-terminated key whichever way its path is written |
| SherlockPath.ProjectToBucket | sherlockml/datasets/path.py:33-41 | the key is the project id followed by the rationalised path; without an id it comes from `SHERLOCKML_PROJECT_ID`, and fails iff that is unset |
| SherlockPath.ProjectRelativePath | sherlockml/datasets/path.py:50-65 | succeeds iff the rationalised path starts with the rationalised root as text; the path is then the root, a run of `/` and the result, which has no leading `/`; otherwise the `ValueError` text names both paths |
| SherlockPath.JoinAllRoot | sherlockml/datasets/path.py:47 | joining normal components onto `/` writes the absolute path |
| SherlockPath.BucketRoundTripForm | sherlockml/datasets/path.py:44-47 | dropping the id from a key gives back any rationalised single-slash path |
| SherlockPath.BucketRoundTrip | sherlockml/datasets/path.py:33-47 | for a path not starting with two slashes, `bucketpath_to_projectpath(projectpath_to_bucketpath(p))` is the rationalised `p` |
| SherlockPath.BucketRoundTripTwoSlashes | sherlockml/datasets/path.py:20-47 | the round trip loses a slash: `//a` is its own rationalisation but comes back as `/a` |
| SherlockPath.RationaliseTwoSlashes | sherlockml/datasets/path.py:20-30 | two leading slashes survive rationalisation |
| SherlockPath.BucketToProjectTwoSlashes | sherlockml/datasets/path.py:44-47 | a key with a doubled slash after the id maps back with a single slash |
| SherlockPath.BucketToProjectExample | sherlockml/datasets/path.py:44-47 | `id/path/` maps back to `/path/` |
| SherlockPath.Prefixes | sherlockml/datasets/path.py:91-93 | one joined prefix per part |
| SherlockPath.PrefixDirectories | sherlockml/datasets/path.py:89-95 | the loop appends, for each `i_last`, the first `i_last` parts joined by `/` plus `/` |
| SherlockPath.ProjectParentDirectoriesAsWritten | sherlockml/datasets/path.py:68-95 | the enumeration of the code as written, over the parts of `dirname` |
| SherlockPath.Ancestors | sherlockml/datasets/path.py:68-80 | one ancestor directory per component |
| SherlockPath.ProjectParentDirectories | sherlockml/datasets/path.py:68-95 | corrected enumeration: for a single-slash path with components, exactly its ancestor directories from `/` down |
| SherlockPath.DirnameOfForm | sherlockml/datasets/path.py:87 | the parent of a rationalised path with its trailing slash stripped |
| SherlockPath.CorrectedPartsForm | sherlockml/datasets/path.py:87-91 | the corrected parts are an empty root field and then the parent's components |
| SherlockPath.PrefixesAncestors | sherlockml/datasets/path.py:91-93 | the prefixes of the corrected parts are the ancestors |
| SherlockPath.CorrectedParentsOfForm | sherlockml/datasets/path.py:83-95 | the corrected enumeration of a rationalised path is its ancestors |
| SherlockPath.CorrectedParentsOfPath | sherlockml/datasets/path.py:83-95 | the corrected enumeration of any single-slash path with components is its ancestors |
| SherlockPath.AncestorsShape | sherlockml/datasets/path.py:68-80 | the ancestors start at `/`, each ends with `/`, and each extends the one before |
| SherlockPath.ParentsFileOrDirectory | sherlockml/datasets/path.py:85-87 | a file path and its directory spelling have the same parents |
| SherlockPath.AsWrittenPartsTopLevel | sherlockml/datasets/path.py:87-91 | as written, the parts of `/a.csv`'s parent `/` are two empty fields |
| SherlockPath.PrefixesTwoEmpty | sherlockml/datasets/path.py:92-93 | two empty parts enumerate as `/` and `//` |
| SherlockPath.AsWrittenTopLevelFile | sherlockml/datasets/path.py:68-95 | as written, `/a.csv` has the parents `/` and `//` |
| SherlockPath.AsWrittenAgreesBelowTop | sherlockml/datasets/path.py:83-95 | below the top level, the code as written gives the ancestors |
| SherlockDatasets.KeyTrailingSlash | sherlockml/datasets/path.py:39 | a key ends with `/` exactly when its rationalised project path does |
| SherlockDatasets.PagePathsMembers | sherlockml/datasets/__init__.py:97-102 | a page contributes exactly the project paths of its keys other than the root |
| SherlockDatasets.ListedPathsMembers | sherlockml/datasets/__init__.py:89-102 | the listing never holds the root, and holds exactly the paths of pages that have `Contents` |
| SherlockDatasets.ListedPathsSnoc | sherlockml/datasets/__init__.py:90-95 | a page without `Contents` adds nothing; a later page's paths follow the earlier ones |
| SherlockDatasets.AppendPagePaths | sherlockml/datasets/__init__.py:97-102 | the inner loop appends the page's non-root project paths to the accumulated list |
| SherlockDatasets.Ls | sherlockml/datasets/__init__.py:54-112 | the paths of every page in order, without the root, and without hidden paths unless `show_hidden` |
| SherlockDatasets.MissingParentsMembers | sherlockml/datasets/__init__.py:222-230 | the directories created are exactly the parents other than the root not already listed |
| SherlockDatasets.CreatePlaceholders | sherlockml/datasets/__init__.py:222-235 | one empty object per missing parent, under the key of that directory |
| SherlockDatasets.CreateParentDirectories | sherlockml/datasets/__init__.py:212-235 | the keys put are those of the path's ancestors that are not the root and not already listed |
| SherlockDatasets.PutFile | sherlockml/datasets/__init__.py:238-249 | a file upload is refused iff its key would end with `/`; otherwise it goes to the path's key |
| SherlockDatasets.GetFileGuard | sherlockml/datasets/__init__.py:313-321 | a download is refused exactly when the local path ends in `/` |
| SherlockDatasets.Cp | sherlockml/datasets/__init__.py:417-458 | a copy is made iff the source is a file and the destination does not end with `/`, from the source key to the destination key; the two refusals have their own messages |
| SherlockDatasets.Rm | sherlockml/datasets/__init__.py:460-485 | only a file is deleted, under its key; anything else is "not a file" |
| SherlockDatasets.Rmdir | sherlockml/datasets/__init__.py:487-518 | only a directory whose listing holds one entry is deleted, under its `/`-terminated key; otherwise "not a directory" or "directory is not empty" |
| SherlockDatasets.DirectoryKeyTrailingSlash | sherlockml/datasets/__init__.py:512-516 | the key of a `/`-terminated path ends with `/` |
| SherlockDatasets.Etag | sherlockml/datasets/__init__.py:545 | the ETag with its surrounding double quotes stripped: the result neither starts nor ends with one |
| SherlockDatasets.EtagQuoted | sherlockml/datasets/__init__.py:545 | a quoted ETag loses exactly its quotes |
| SherlockDatasetsSession.ProjectIdFromEnvironment | sherlockml/datasets/session.py:27-35 | the project id is `SHERLOCKML_PROJECT_ID`, and an error iff it is unset |
| SherlockDatasetsSession.ResolveProjectId | sherlockml/datasets/session.py:48-49 | an explicit id, or the environment's when none is given |
| SherlockDatasetsSession.GetVerifiedSecrets | sherlockml/datasets/session.py:55-64 | between 1 and 30 fetches; the first verified answer is returned, and the error after 30 unverified ones |
| SherlockDatasetsSession.DatasetsSession.constructor | sherlockml/datasets/session.py:42-45 | both caches start empty |
| SherlockDatasetsSession.DatasetsSession.Bucket | sherlockml/datasets/session.py:47-53 | the bucket is fetched once per project and cached for good; the secrets cache is untouched |
| SherlockDatasetsSession.DatasetsSession.CachedSecrets | sherlockml/datasets/session.py:55-74 | fresh cached secrets are returned unchanged with the cache untouched; stale or missing ones are the service's first verified answer `answer(k)`, within 30 calls, cached with the clock read after those `k + 1` calls; the call fails, leaving the cache untouched, exactly when the entry is stale and none of the 30 answers is verified |
| SherlockDatasetsSession.DatasetsSession.S3Secrets | sherlockml/datasets/session.py:76-81 | the error and no change when no project id is known; otherwise, for the resolved id, the cached secrets unchanged while fresh, else the first verified answer cached with the clock read after the fetch, and a failure, with the cache unchanged, exactly when no answer in 30 is verified |
| SherlockDatasetsSession.SessionHolder.constructor | sherlockml/datasets/session.py:92 | no session yet |
| SherlockDatasetsSession.SessionHolder.Get | sherlockml/datasets/session.py:95-99 | the session is created on the first call and the same one returned afterwards |
| SherlockDatasetsSession.BucketTwice | sherlockml/datasets/session.py:47-53 | two lookups of a project give the bucket of the one fetch |
| Truthiness.FirstTruthyIndex | faculty/config.py:219-262 | an `or` chain's first truthy value exists iff some operand is truthy, and it is the operand before which none is truthy |
| Truthiness.OrAllFirst | faculty/config.py:230-236 | an `or` chain yields the first truthy operand, or its last operand when no other is truthy |
| Truthiness.OrAllAppend | faculty/config.py:230-236 | grouping the tail of an `or` chain does not change its value |
| Truthiness.EmptyIsNone | faculty/config.py:230-236 | `""` and `None` are interchangeable in an `or` chain |
| Truthiness.FirstTruthyUpdate | faculty/config.py:230-236 | replacing a falsy operand by `None` does not change the first truthy one |
| FacultyConfig.Get | faculty/config.py:53-57 | an option has a value iff its section sets it or the file's defaults do |
| FacultyConfig.Load | faculty/config.py:36-69 | one profile per section of the file, keyed by the section's name; a missing file gives none |
| FacultyConfig.LoadProfile | faculty/config.py:72-92 | the named section's profile, or the all-None profile when there is no such section |
| FacultyConfig.DefaultCredentialsPath | faculty/config.py:95-114 | `<config home>/faculty/credentials`, unless only the legacy `<config home>/sherlockml/credentials` exists |
| FacultyConfig.JoinAllCredentials | faculty/config.py:101-102 | `os.path.join(base, dir, "credentials")` adds one `/` before `credentials` |
| FacultyConfig.ResolveCredentialsPath | faculty/config.py:130-150 | the argument, then `FACULTY_CREDENTIALS_PATH`, then `SHERLOCKML_CREDENTIALS_PATH` (the first truthy one), else the default path; never empty |
| FacultyConfig.ResolveProfileName | faculty/config.py:219-224 | the argument, then `FACULTY_PROFILE`, then `SHERLOCKML_PROFILE`, else `default` |
| FacultyConfig.Resolve | faculty/config.py:230-269 | each field is the first truthy of argument, `FACULTY_*` variable, `SHERLOCKML_*` variable and file value; domain and protocol fall back to their defaults; "No client_id found" before "No client_secret found"; succeeds iff both are found |
| FacultyConfig.ArgumentsWin | faculty/config.py:230-262 | a non-empty argument wins over every other source |
| FacultyConfig.NothingGiven | faculty/config.py:246-252 | with nothing set anywhere the client id is reported missing |
| FacultyConfig.EmptyArgumentIgnored | faculty/config.py:230-236 | an empty-string argument counts as none |
| FacultyConfig.FileProfileUsed | faculty/config.py:226-269 | a full profile in the file is used as it is when no argument or variable overrides it |
| FacultyConfig.OnlyLastTruthy | faculty/config.py:230-236 | a chain whose only truthy operand is the last yields it |
| SherlockConfig.SherlockCredentialsPath | sherlockml/config.py:50-54 | always `<config home>/sherlockml/credentials` |
| SherlockConfig.SherlockFileProfile | sherlockml/config.py:65-83 | the file is the argument, then `SHERLOCKML_CREDENTIALS_PATH`, then the default; the profile name the argument, then `SHERLOCKML_PROFILE`, then `default` |
| SherlockConfig.SherlockResolve | sherlockml/config.py:85-119 | each field is the first truthy of argument, `SHERLOCKML_*` variable and file value, with the same defaults and errors as the newer resolver |
| SherlockConfig.FacultyVariablesIgnored | sherlockml/config.py:65-119 | no `FACULTY_*` variable changes the result |
| CliConfig.CliProfileName | faculty/cli/config.py:27-47 | `FACULTY_PROFILE`, then `SHERLOCKML_PROFILE`, then the deprecated `FACULTY_ENV` or `SHERLOCKML_ENV` |
| CliConfig.ProfileCache.constructor | faculty/cli/config.py:24 | the cache starts empty |
| CliConfig.ProfileCache.GetProfile | faculty/cli/config.py:40-51 | the first call resolves and caches; a cached profile is returned unchanged; a failed resolution leaves the cache empty |
| CliConfig.ProfileCache.UrlFor | faculty/cli/config.py:54-57 | `{protocol}://{service}.{domain}` of the cached or newly resolved profile |
| CliConfig.ProfileCache.CasebookUrl | faculty/cli/config.py:60-62 | the URL of the `casebook` service |
| CliConfig.ProfileCache.HudsonUrl | faculty/cli/config.py:65-67 | the URL of the `hudson` service |
| CliConfig.ProfileCache.GalleonUrl | faculty/cli/config.py:70-72 | the URL of the `galleon` service |
| CliConfig.ProfileCache.BaskervilleUrl | faculty/cli/config.py:75-77 | the URL of the `baskerville` service |
| CliConfig.GetProfileTwice | faculty/cli/config.py:40-51 | a second call returns the first call's profile even after the environment changed |
| Urls.ServiceUrlShape | faculty/session/__init__.py:156-159 | `protocol://service.domain`, followed by the endpoint with a leading `/` exactly when the endpoint is non-empty |
| Urls.UrlForService | faculty/cli/config.py:54-57 | the URL starts with `protocol://`, ends with `.domain`, and has the service between them |
| Urls.UrlForServiceAgrees | faculty/cli/config.py:54-57 | the command line's URL is the session's `service_url` with an empty endpoint |
| Urls.UrlForServiceInjective | faculty/cli/config.py:54-57 | different services get different URLs |
| AccessTokens.StoreGet | faculty/session/accesstoken.py:163-167 | the stored token of the profile, and None iff there is none |
| AccessTokens.Lookup | faculty/session/accesstoken.py:182-186 | a cache answers the stored token iff it exists and `expires_at >= now` |
| AccessTokens.LookupAfterAdd | faculty/session/accesstoken.py:55-65 | a token just added is found for its profile exactly while it is valid, and other profiles' answers do not change |
| AccessTokens.LookupExpires | faculty/session/accesstoken.py:182-186 | once a token is not returned, it is not returned at any later time |
| AccessTokens.MemoryCache.constructor | faculty/session/accesstoken.py:36-37 | the store starts empty |
| AccessTokens.MemoryCache.Add | faculty/session/accesstoken.py:55-65 | only the profile's entry is overwritten |
| AccessTokens.LoadedStore | faculty/session/accesstoken.py:117-130 | a missing or malformed cache file is an empty store, an unreadable one an error, a good one its tokens |
| AccessTokens.DefaultTokenCachePath | faculty/session/accesstoken.py:189-193 | `faculty/token-cache.json` under `XDG_CACHE_HOME`, or under `~/.cache` when that is unset or empty |
| AccessTokens.TokenCacheUnder | faculty/session/accesstoken.py:193 | `os.path.join(base, "faculty", "token-cache.json")` written out |
| AccessTokens.FileSystemCache.constructor | faculty/session/accesstoken.py:77-82 | a None path means the default path; nothing is loaded yet |
| AccessTokens.FileSystemCache.EnsureLoaded | faculty/session/accesstoken.py:97-98 | the store is loaded from the file only when not loaded yet |
| AccessTokens.FileSystemCache.Get | faculty/session/accesstoken.py:84-100 | loads the store lazily, then answers as the memory cache does; an unreadable file is an error |
| AccessTokens.FileSystemCache.Add | faculty/session/accesstoken.py:102-115 | loads the store lazily, sets the profile's entry and persists the store to the cache path |
| AccessTokens.FreshCacheSeesAdd | faculty/session/accesstoken.py:102-137 | after `add`, a new cache on the same path returns the token while it is valid |
| Sessions.TokenRequestFor | faculty/session/__init__.py:162-168 | the request goes to `protocol://hudson.domain/access_token` with the client-credentials grant of the profile |
| Sessions.TokenOf | faculty/session/__init__.py:170-179 | a granted reply gives its token, expiring `expires_in` seconds after `now`; any other reply is an error |
| Sessions.Session.constructor | faculty/session/__init__.py:46-48 | the session keeps the profile and the cache |
| Sessions.Session.AccessTokenInMemory | faculty/session/__init__.py:50-65 | a valid cached token is returned without a fetch; otherwise a token is fetched and added to the cache |
| Sessions.Session.AccessTokenOnDisk | faculty/session/__init__.py:50-65 | as with the memory cache, and the fetched token is persisted; an unreadable cache file fails before any fetch |
| Sessions.SecondCallHitsCache | faculty/session/__init__.py:50-65 | a second call right after a granted fetch returns the same token without fetching |
| Sessions.SessionRegistry.constructor | faculty/session/__init__.py:86 | no session is memoised yet |
| Sessions.SessionRegistry.GetSession | faculty/session/__init__.py:89-153 | the memoised session for the same seven arguments; otherwise the profile is resolved, a memory cache made when none is given, and the new session memoised; a resolution error memoises nothing |
| Sessions.GetSessionTwice | faculty/session/__init__.py:100-101 | identical arguments give the identical session object |
| Sessions.LegacySessionRegistry.constructor | faculty/session.py:187 | no session is memoised yet |
| Sessions.LegacySessionRegistry.GetSession | faculty/session.py:190-199 | the same memoisation, keyed by the keyword arguments in the order given and the cache |
| Sessions.KeywordOrderMatters | faculty/session.py:191 | the same keyword arguments in another order resolve the same profile but make a different key |
| FacultyAuth.GetAccessTokenCached | faculty/clients/auth.py:26-73 | a cached token is used while `expires_at >= now`; otherwise a token is fetched and cached |
| FacultyAuth.FacultyAuth.constructor | faculty/clients/auth.py:108-109 | the authenticator keeps the profile |
| FacultyAuth.FacultyAuth.Call | faculty/clients/auth.py:111-117 | `Authorization` is set to `Bearer <token>` and nothing else of the request changes; a fetch happens iff no valid token is cached |
| FacultyAuth.TwoRequestsOneFetch | faculty/clients/auth.py:68-117 | two requests at the same time with a granted, unexpired token cost one fetch and carry the same bearer header |
| SherlockAuth.SherlockTokenRequest | sherlockml/clients/auth.py:34-41 | the request goes to `<hudson url>/access_token` with the client-credentials grant |
| SherlockAuth.SherlockMLAuth.constructor | sherlockml/clients/auth.py:86-90 | the credentials are kept and no token is held |
| SherlockAuth.SherlockMLAuth.Call | sherlockml/clients/auth.py:96-106 | a token is fetched when none is held and fetched again when the held one has expired, then the bearer header is set |
| SherlockAuth.SherlockMLAuth.Fetch | sherlockml/clients/auth.py:92-94 | the k-th fetch's token is stored and returned |
| CliAuth.TokenCachePath | faculty/cli/auth.py:34-41 | `faculty/token-cache.json` under `XDG_CACHE_DIR`, or under `~/.cache` when that is unset or empty |
| CliAuth.CachePathsShared | faculty/cli/auth.py:36 | the command line reads `XDG_CACHE_DIR` and the library `XDG_CACHE_HOME`: with neither set they share one file, and setting only the library's variable moves only the library's file |
| CliAuth.CliLoad | faculty/cli/auth.py:71-77 | a file that holds a store gives that store; a missing file or one that is not JSON gives `{}` |
| CliAuth.CliGet | faculty/cli/auth.py:102-109 | a token is returned iff the domain and client are stored with an expiry that is set and not passed, and it is the stored token |
| CliAuth.CliAdd | faculty/cli/auth.py:97-100 | the (domain, client) entry is set, the domain created when missing, and every other entry kept |
| CliAuth.CliGetAfterAdd | faculty/cli/auth.py:97-109 | an added entry is found exactly while it is valid, and every other (domain, client) answer is unchanged |
| CliAuth.CliTokenCache.constructor | faculty/cli/auth.py:67-69 | the cache path is taken from the environment and the store loaded from it |
| CliAuth.CliTokenCache.Add | faculty/cli/auth.py:97-100 | the store becomes the store with the entry added |
| CliAuth.CliTokenCache.Commit | faculty/cli/auth.py:79-89 | the whole store is written to the cache path and no other file changes |
| CliAuth.RaiseOnHudsonError | faculty/cli/auth.py:44-61 | no error iff the status is one of the valid codes (`[200]` by default); otherwise `AuthenticationError` naming the body's `error` and `error_description`, each `""` when absent or the body is not JSON |
| CliAuth.HudsonErrorMessage | faculty/cli/auth.py:57-61 | a refused request with a JSON error body gives the message with both fields in order |
| CliAuth.TokenFromResponse | faculty/cli/auth.py:121-134 | a Hudson error is passed on; a token results iff the status is 200 and the body has a string `access_token` and an `expires_in` that `float()` reads as a whole number (an integer, a boolean or integer text), and it expires that many seconds after `now` |
| CliAuth.TokenTextExpiry | faculty/cli/auth.py:131-132 | an `expires_in` sent as decimal text, such as `"3600"`, gives the same expiry as the number |
| CliAuth.HitNeedsNoRequest | faculty/cli/auth.py:136-148 | a valid cached token is returned whatever Hudson would answer |
| CliAuth.FetchedTokenCached | faculty/cli/auth.py:136-148 | after a miss and a granted fetch, every later `token` before the expiry returns the same token without asking Hudson |
| CliAuth.CliSession.constructor | faculty/cli/auth.py:115-119 | the session keeps the url and profile, with no user id |
| CliAuth.CliSession.Token | faculty/cli/auth.py:136-148 | the token of `ObtainToken`; Hudson is asked iff the cache misses, and the cache file is rewritten with the store, the new entry added on a fetch |
| CliAuth.CliSession.AuthHeaders | faculty/cli/auth.py:150-152 | `{"Authorization": "Bearer <token>"}` exactly when a token is obtained, its error otherwise |
| CliAuth.CliSession.GetAccount | faculty/cli/auth.py:154-161 | the `account` of the reply to `/authenticate`, requested with the user agent and the bearer header only after a token is obtained |
| CliAuth.CliSession.UserId | faculty/cli/auth.py:163-168 | a memoised user id is returned as it is; otherwise the account's `userId`, parsed as a UUID, is memoised on success |
| CliAuth.CliSession.Username | faculty/cli/auth.py:170-174 | the account's `username`, fetched again on every call |
| CliAuth.Member | faculty/cli/auth.py:161 | `value[key]` succeeds iff the value is an object with that key, and gives that member |
| CliAuth.AccountFrom | faculty/cli/auth.py:154-161 | a Hudson error is passed on; the account results iff the status is 200 and the body has an `account` |
| CliAuth.UserIdFrom | faculty/cli/auth.py:166 | succeeds iff `userId` is a string the UUID parser accepts, and gives the parsed id |
| CliAuth.HudsonSessionHolder.constructor | faculty/cli/auth.py:176 | no session is held |
| CliAuth.HudsonSessionHolder.GetSession | faculty/cli/auth.py:179-185 | the held session is returned when one exists; otherwise the profile is resolved and a new session for the Hudson url held |
| CliAuth.CredentialsValid | faculty/cli/auth.py:212-220 | false exactly when obtaining a token from `protocol://hudson.domain` raises an authentication error |
| FacultyBase.ErrorClassFor | faculty/clients/base.py:71-82 | the generic `HttpError` exactly for the statuses the table does not map |
| FacultyBase.ErrorTableInverse | faculty/clients/base.py:71-82 | every mapped status comes back from its class, and every specific class from its status |
| FacultyBase.ErrorTableInjective | faculty/clients/base.py:71-82 | no two statuses map to the same error class |
| FacultyBase.LoadErrorBody | faculty/clients/base.py:90-92 | a body that is not a JSON object gives neither field |
| FacultyBase.LoadErrorBodyFields | faculty/clients/base.py:90-92 | string `error` and `errorCode` members are read as the error and error code |
| FacultyBase.LoadErrorBodyIgnoresUnknown | faculty/clients/base.py:85-87 | members other than `error` and `errorCode` do not change what is loaded |
| FacultyBase.CheckStatus | faculty/clients/base.py:95-102 | an error iff the status is 400 or more, of the mapped class, with the status and the loaded error body |
| FacultyBase.CheckStatusGeneric | faculty/clients/base.py:97 | a failing status outside the ten mapped ones raises the generic class |
| FacultyBase.CheckServiceName | faculty/clients/base.py:114-118 | a client is made iff its class sets a service name |
| FacultyBase.BaseClient.constructor | faculty/clients/base.py:114-121 | the client keeps its service name and has no HTTP session yet |
| FacultyBase.BaseClient.HttpSession | faculty/clients/base.py:123-127 | the first call creates and keeps a session; later calls return the kept one |
| FacultyBase.BaseClient.Request | faculty/clients/base.py:129-134 | with status checking the error of `CheckStatus`, without it none; a session is held afterwards |
| SherlockBase.ExtractError | sherlockml/clients/base.py:92-101 | the message iff the body is an object whose only member is a string `error` |
| SherlockBase.CheckStatus | sherlockml/clients/base.py:104-107 | an error iff the status is 400 or more, of the mapped class, with the extracted message |
| SherlockBase.CheckStatusAgrees | sherlockml/clients/base.py:104-107 | the two packages raise for the same statuses and with the same class |
| SherlockBase.DeserialiseResponse | sherlockml/clients/base.py:110-123 | a body that is not JSON and one that does not load give the two `InvalidResponse` messages; a good one gives what it loads to |
| ObjectClient.EncodedPath | faculty/clients/object.py:121 | the quoted path with its leading slashes stripped, which never starts with `/` |
| ObjectClient.QuoteLeadingByte | faculty/clients/object.py:121 | quoting a non-empty text starts with `/` iff the text does |
| ObjectClient.EncodedPathLeadingSlashes | faculty/clients/object.py:121 | any number of leading slashes gives the same endpoint path |
| ObjectClient.ObjectEndpointInjective | faculty/clients/object.py:120-122 | two paths with the same object endpoint have the same UTF-8 bytes once their leading slashes are stripped |
| ObjectClient.EncodedPathDoubleSlash | tests/clients/test_object.py:177-190 | a path such as `//test/path`, whose text after the slashes uses only kept characters, is sent as that text |
| ObjectClient.QuoteBrackets | faculty/clients/object.py:121 | `[` and `]` are sent as `%5B` and `%5D` |
| ObjectClient.QuoteFivePieces | faculty/clients/object.py:121 | quoting a concatenation of five pieces concatenates their quotings |
| ObjectClient.EncodedPathPieces | faculty/clients/object.py:121 | one leading slash before five pieces, the first not a slash, is sent as the five pieces quoted one by one |
| ObjectClient.EncodedPathBrackets | tests/clients/test_object.py:190-203 | a path such as `/test/[1].txt` is sent with its brackets as `%5B` and `%5D` and the kept text around them unchanged, as in `test/%5B1%5D.txt` |
| ObjectClient.Flag | faculty/clients/object.py:189 | `1 if flag else 0`: 1 exactly for true |
| ObjectClient.OptionalEntry | faculty/clients/object.py:229-230 | a key is added only when its value is given |
| ObjectClient.ListParams | faculty/clients/object.py:160-163 | `pageToken` is sent iff a page token is given |
| ObjectClient.CreateDirectoryParams | faculty/clients/object.py:189 | exactly `parents`, as 1 or 0 |
| ObjectClient.CopyParams | faculty/clients/object.py:228-230 | `sourcePath` always, `recursive` iff given, as 1 or 0, and nothing else |
| ObjectClient.DeleteParams | faculty/clients/object.py:269-271 | `recursive` iff given, as 1 or 0, and nothing else |
| ObjectClient.DefaultRecursiveIsZero | faculty/clients/object.py:198-271 | the default `recursive=False` sends `recursive=0` to `copy` and `delete` |
| ObjectClient.PresignDownloadBody | faculty/clients/object.py:306-309 | `path` always, `responseContentDisposition` iff given, and nothing else |
| ObjectClient.CompleteMultipartUploadBody | faculty/clients/object.py:415-421 | an object of exactly `path`, `uploadId` and `parts`, holding the path and upload id given and one `parts` entry per part |
| ObjectClient.CompleteMultipartUploadParts | faculty/clients/object.py:467-475 | the body holds the path and upload id given, and each dumped part reads back as the part at the same position |
| ObjectClient.CreateDirectoryError | faculty/clients/object.py:190-196 | `PathAlreadyExists` iff the error is a conflict with code `object_already_exists`; any other error is re-raised |
| ObjectClient.CopyError | faculty/clients/object.py:231-242 | `PathNotFound` iff not found with `source_path_not_found`, `SourceIsADirectory` iff bad request with `source_is_a_directory`, otherwise re-raised |
| ObjectClient.DeleteError | faculty/clients/object.py:273-284 | `PathNotFound` iff not found with `object_not_found`, `TargetIsADirectory` iff bad request with `target_is_a_directory`, otherwise re-raised |
| ObjectClient.CreateDirectoryConflict | faculty/clients/object.py:190-194 | a 409 reply with `object_already_exists` raises `PathAlreadyExists` for the path |
| ObjectClient.CopyErrorResponses | faculty/clients/object.py:231-242 | the 404 and 400 replies with the two codes raise the two domain exceptions for the source |
| ObjectClient.DeleteErrorResponses | faculty/clients/object.py:273-284 | the 404 and 400 replies with the two codes raise the two domain exceptions for the path |
| PercentEncoding.Utf8Char | faculty/clients/object.py:121 | one code point gives one to four bytes, a single byte exactly for ASCII, equal to the code point |
| PercentEncoding.Utf8 | faculty/clients/object.py:121 | `s.encode("utf-8")`: at least one byte per character |
| PercentEncoding.QuoteByte | faculty/clients/object.py:121 | an unreserved byte or `/` is kept, any other byte becomes `%` and two upper-case hex digits |
| PercentEncoding.QuoteAppend | faculty/clients/object.py:121 | quoting a concatenation concatenates the quotings |
| PercentEncoding.QuoteUnchanged | faculty/clients/object.py:121 | a text of kept ASCII characters is unchanged |
| PercentEncoding.QuoteAlphabet | faculty/clients/object.py:121 | the result holds only unreserved characters, `/`, `%` and upper-case hex digits |
| PercentEncoding.DecodeQuote | faculty/clients/object.py:121 | decoding the quoted text gives back the UTF-8 bytes of the input |
| PercentEncoding.QuoteInjective | faculty/clients/object.py:121 | texts with different UTF-8 bytes have different quotings |
| Http.BearerHeader | faculty/clients/auth.py:114 | `Bearer ` followed by the token |
| Http.PreparedRequest.constructor | faculty/clients/auth.py:111-117 | the request keeps its url and headers |
| ExperimentModels.ComparisonFromWire | faculty/clients/experiment.py:88-95 | an operator found by its wire value has that wire value |
| ExperimentModels.ComparisonWireRoundTrip | faculty/clients/experiment.py:88-95 | every operator is found again from its wire value, so no two share one |
| ExperimentSchemas.ValidateDiscrete | faculty/clients/experiment.py:901-907 | passes exactly for `defined`, `eq` and `ne`, and fails with `Not a discrete operator.` otherwise |
| ExperimentSchemas.SerialiseAs | faculty/clients/experiment/_schemas.py:186-200 | a value serialises iff it fits the wrapped field; a param value that is not a string or number fails with the `unsupported_type` validation message, which `self.fail` raises; strings and integers are sent as they are |
| ExperimentSchemasAsWritten.SerialiseParamAsWritten | faculty/clients/experiment.py:871-885 | as written, a string or number serialises as under the corrected field, and any other param value fails with `UnboundLocalError`, because `make_error` builds the error without raising it |
| ExperimentSchemasAsWritten.ParamValueAsWrittenEscapes | faculty/clients/experiment.py:883-885 | a UUID, run status or date-time param value escapes with `UnboundLocalError` as written, where the corrected field reports `unsupported_type` |
| ExperimentSchemas.SerialiseValue | faculty/clients/experiment.py:888-898 | under `defined` the value is sent as a boolean, under every other operator through the wrapped field |
| ExperimentSchemas.WithoutType | faculty/clients/experiment.py:746-750 | the dump with `type` removed and every other member kept |
| ExperimentSchemas.OneOfDump | faculty/clients/experiment.py:746-750 | the `type` key the one-of schema adds is gone, and fields without one are unchanged |
| ExperimentSchemas.DumpSingle | faculty/clients/experiment.py:910-990 | a filter that checks its operator fails on a non-discrete one; otherwise exactly `by`, `operator`, `value` and, for tag, param and metric filters, `key` |
| ExperimentSchemas.DumpFilter | faculty/clients/experiment.py:992-1008 | dumps iff every single filter in the tree is serialisable; never carries `type`; a compound filter gives its logical operator and one dump per condition |
| ExperimentSchemas.DumpConditions | faculty/clients/experiment.py:992-995 | the conditions from `i` on dump iff each is serialisable, one dump per condition |
| ExperimentSchemas.DumpConditionsInOrder | faculty/clients/experiment.py:992-995 | the k-th dumped condition is the dump of the k-th condition |
| ExperimentSchemas.DumpCompound | faculty/clients/experiment.py:992-995 | a compound filter's `conditions` are the dumps of its conditions, in order |
| ExperimentSchemas.DumpSort | faculty/clients/experiment.py:1011-1052 | exactly `by`, `order` and, for tag, param and metric sorts, `key` |
| ExperimentSchemas.DumpSortInjective | faculty/clients/experiment.py:1011-1052 | no two sorts dump alike |
| ExperimentSchemas.DumpPage | faculty/clients/experiment.py:753-755 | exactly `start` and `limit` |
| ExperimentSchemas.DumpRunQuery | faculty/clients/experiment.py:1055-1058 | dumps iff the filter is absent or serialisable; exactly `filter`, `sort` and `page`, each the nested dump or `null` when absent, the sorts in order |
| ExperimentSchemas.EmptyRunQuery | faculty/clients/experiment.py:1055-1058 | an empty query dumps to three nulls |
| ExperimentClient.ListOrNull | faculty/clients/experiment.py:843-846 | `null` exactly for an absent list, otherwise one dump per element, in order |
| ExperimentClient.CreateExperiment | faculty/clients/experiment.py:215-222 | POST to `/project/<id>/experiment` with exactly `name`, `description` and `artifactLocation`, absent ones `null` |
| ExperimentClient.UpdateExperiment | faculty/clients/experiment.py:296-301 | PATCH to `/project/<id>/experiment/<n>` with exactly `name` and `description`, `null` exactly when not given |
| ExperimentClient.NameConflictError | faculty/clients/experiment.py:223-227 | `ExperimentNameConflict(name)` iff the error is a conflict with code `experiment_name_conflict`, otherwise the error is re-raised |
| ExperimentClient.CreateRun | faculty/clients/experiment.py:381-397 | POST to `/project/<id>/experiment/<n>/run` with exactly `name`, `parentRunId`, `startedAt`, `artifactLocation` and `tags`, the tags `[]` when not given |
| ExperimentClient.BodyKey | faculty/clients/experiment.py:402 | `response.json()[key]` succeeds iff the body is an object holding the key |
| ExperimentClient.CreateRunError | faculty/clients/experiment.py:398-404 | a conflict with `experiment_deleted` becomes `ExperimentDeleted` carrying the error message and the body's `experimentId`, and a body without `experimentId` fails instead; anything else is re-raised |
| ExperimentClient.QueryPage | faculty/clients/experiment.py:543-545 | a page is sent iff both `start` and `limit` are given |
| ExperimentClient.QueryRuns | faculty/clients/experiment.py:542-549 | POST to `/project/<id>/run/query` with the dumped run query; refused iff the filter does not dump |
| ExperimentClient.ExperimentIdsFilter | faculty/clients/experiment.py:479-486 | an OR over one `experimentId eq` filter per id, in order, which always dumps |
| ExperimentClient.LifecycleFilter | faculty/clients/experiment.py:487-491 | a `deletedAt defined` filter whose value is true exactly for the deleted stage |
| ExperimentClient.ListRunsFilter | faculty/clients/experiment.py:493-500 | the AND of both filters when both are given, the one given otherwise, none when neither |
| ExperimentClient.ListRuns | faculty/clients/experiment.py:472-502 | an empty id list is answered with an empty page without a request; otherwise the query of `ListRunsFilter` |
| ExperimentClient.RunIdsFilter | faculty/clients/experiment.py:674-679 | an OR over one `runId eq` filter per id, in order, which always dumps |
| ExperimentClient.RunsSelection | faculty/clients/experiment.py:667-680 | `{}` exactly when no ids are given, otherwise just the dumped OR filter |
| ExperimentClient.DeleteRuns | faculty/clients/experiment.py:665-684 | an empty id list is answered with an empty response without a request; otherwise POST to `/project/<id>/run/delete/query` with the selection |
| ExperimentClient.RestoreRuns | faculty/clients/experiment.py:704-723 | an empty id list is answered with an empty response without a request; otherwise POST to `/project/<id>/run/restore/query` with the selection |
| ExperimentClient.RunsSelectionNamesRuns | faculty/clients/experiment.py:674-680 | the k-th condition sent is `{"operator": "eq", "value": <k-th id>, "by": "runId"}` |
| ExperimentClient.LogRunData | faculty/clients/experiment.py:576-583 | nothing is sent iff metrics, params and tags are all absent; otherwise PATCH to `/project/<id>/run/<run>/data` with all three, absent ones `null` |
| ExperimentClient.LogRunDataError | faculty/clients/experiment.py:584-590 | a conflict with `conflicting_params` becomes `ParamConflict` with the body's `parameterKeys` (`[]` for `null`); anything else is re-raised |
| ExperimentClient.MetricsOf | faculty/clients/experiment.py:636-645 | one metric per history point, in order, each named by the history's key |
| ExperimentClient.MetricsOfLossless | faculty/clients/experiment.py:636-645 | the points are recovered from the metrics |
| ExperimentRuns.FromClientModel | faculty/experiment.py:64-66 | every field of the client run is carried over unchanged |
| ExperimentRuns.FromClientModelInjective | faculty/experiment.py:64-66 | different client runs give different runs |
| ExperimentRuns.ConvertAll | faculty/experiment.py:79 | one converted run per run, in order |
| ExperimentRuns.AllRunsContains | faculty/experiment.py:74-89 | run j of page p sits at the position after all runs of the earlier pages |
| ExperimentRuns.AllRunsSnoc | faculty/experiment.py:81-89 | one more page appends that page's converted runs |
| ExperimentRuns.FollowPages | faculty/experiment.py:74-89 | pages are read up to the first without `next`, each later request asks for the previous page's `next`, and the runs are those of the pages read, in order |
| ExperimentRuns.Query | faculty/experiment.py:69-91 | a filter that does not dump fails on the first request; otherwise the runs of every page up to the first without `next`, in order |
| CliParse.WithoutUnderscores | faculty/cli/parse.py:10 | removing the underscores of digit groups leaves only digits, and a text without underscores is unchanged |
| CliParse.PyInt | faculty/cli/parse.py:10 | `int(text)` accepts only text that is not blank once surrounding whitespace is stripped |
| CliParse.PyIntOfNat | faculty/cli/parse.py:10 | the decimal form of every natural number parses back to it |
| CliParse.ParseRunIdentifier | faculty/cli/parse.py:8-18 | succeeds iff splitting at `.` (at most twice) gives one or two integers; the first is the run number, and a subrun number is present iff there are two parts; otherwise `Invalid run identifier: <text>` |
| CliParse.RunNumberRoundTrip | faculty/cli/parse.py:8-14 | `N` parses as run N with no subrun |
| CliParse.ParseTwoParts | faculty/cli/parse.py:15-16 | two integer parts give the run and subrun numbers |
| CliParse.SubrunRoundTrip | faculty/cli/parse.py:8-16 | `N.M` parses as run N, subrun M |
| CliParse.TrailingDotRejected | faculty/cli/parse.py:9-12 | `N.` is refused, its empty second part not being an integer |
| CliParse.ThreePartsRejected | faculty/cli/parse.py:17-18 | `2.3.2` is refused for having three parts |
| CliParse.ExponentRejected | faculty/cli/parse.py:9-12 | `1e3` is refused: `int` reads no exponent |
| CliParse.EscapeSplit | faculty/cli/parse.py:21-48 | the loop computes the reference split of `SplitUnescaped` |
| CliParse.ScanLength | faculty/cli/parse.py:21-48 | one more part than there are unescaped delimiters, counted from any scan state |
| CliParse.SplitUnescapedLength | faculty/cli/parse.py:21-48 | one more part than there are unescaped delimiters |
| CliParse.ScanEscaped | faculty/cli/parse.py:29-38 | a part with its delimiters escaped is read back whole into the current chunk |
| CliParse.ScanJoined | faculty/cli/parse.py:21-48 | scanning escaped parts joined by the delimiter appends exactly those parts |
| CliParse.EscapeSplitRoundTrip | faculty/cli/parse.py:21-48 | splitting parts that were escaped and joined by the delimiter gives the parts back |
| CliParse.ParseParameterValues | faculty/cli/parse.py:51-63 | the loop computes the reference fold `ParameterValues` |
| CliParse.ValuesFromFails | faculty/cli/parse.py:55-61 | parsing fails iff some non-blank part does not split into exactly a name and a value |
| CliParse.ValuesFromSound | faculty/cli/parse.py:55-62 | every parsed name comes with the value of some non-blank part `name=value` |
| CliParse.EmptyParameterString | faculty/cli/parse.py:51-63 | the empty string gives no parameters |
| Shell.Quote | faculty/cli/shell.py:27-36 | `''` for the empty string, the string itself when every character is safe, otherwise a single-quoted word |
| Shell.ReadSafe | faculty/cli/shell.py:31-32 | safe characters are read by the shell as themselves |
| Shell.ReadQuotedQuote | faculty/cli/shell.py:34-36 | inside single quotes, `'"'"'` reads as one `'` and stays inside single quotes |
| Shell.ReadReplaced | faculty/cli/shell.py:36 | a string with its single quotes replaced reads back as the string inside single quotes |
| Shell.QuoteRoundTrip | faculty/cli/shell.py:27-36 | the shell reads the quoted string back as exactly one word equal to the string |
| Shell.QuoteUnchanged | faculty/cli/shell.py:29-32 | quoting leaves a string unchanged iff it is non-empty and all safe |
| Shell.QuoteDollarQuote | faculty/cli/shell.py:34-35 | `$'b` is quoted as `'$'"'"'b'` |
| ServerSentEvents.LastWhere | faculty/cli/client.py:54-58 | the value kept is one that satisfies the line test |
| ServerSentEvents.FirstSomeNone | faculty/cli/client.py:54-62 | no error iff no line raises |
| ServerSentEvents.FirstSomeIsFirst | faculty/cli/client.py:54-62 | the error reported is that of a line before which none raised |
| ServerSentEvents.LastWhereAt | faculty/cli/client.py:54-58 | the value kept is that of the last line of its kind |
| ServerSentEvents.CollectAppend | faculty/cli/client.py:59-60 | the data values of two blocks of lines are those of each block, in order |
| ServerSentEvents.FromLines | faculty/cli/client.py:50-64 | the loop over the lines gives the reference message `ParseMessage`: the first line error, or the decoded data with the last id and event |
| ServerSentEvents.FirstErrorIsFirst | faculty/cli/client.py:54-62 | a message fails on its lines iff one raises (an `id:` not an integer, or a line of no known kind), with the first such line's error |
| ServerSentEvents.LastIdNone | faculty/cli/client.py:51 | without an `id:` line the id is None |
| ServerSentEvents.LastIdIsLast | faculty/cli/client.py:55-56 | the id is the integer of the last `id:` line |
| ServerSentEvents.LastEventNone | faculty/cli/client.py:52 | without an `event:` line the event is None |
| ServerSentEvents.LastEventIsLast | faculty/cli/client.py:57-58 | the event is the stripped text of the last `event:` line |
| ServerSentEvents.DataValuesAppend | faculty/cli/client.py:59-60 | the data lines of two blocks concatenate in order |
| ServerSentEvents.DataValuesOne | faculty/cli/client.py:59-60 | a `data:` line contributes its stripped text |
| ServerSentEvents.FrameSpec | faculty/cli/client.py:157-164 | the non-blank lines are split into one group per blank line plus what is pending, in order, and none of them is blank |
| ServerSentEvents.FramePrefix | faculty/cli/client.py:157-164 | the groups framed from a prefix of the lines are a prefix of the groups of all lines |
| ServerSentEvents.ParsedSpec | faculty/cli/client.py:157-164 | the messages are those of the leading groups that parse, in order; parsing stops at the first group that fails, with its error |
| ServerSentEvents.ParsedSnoc | faculty/cli/client.py:159-162 | one more group adds its message, or stops with its error |
| ServerSentEvents.ParsedStops | faculty/cli/client.py:161 | once a group has failed, later groups change nothing |
| ServerSentEvents.ParsedPrefixStops | faculty/cli/client.py:161 | a failure among the first groups is the outcome of the whole stream |
| ServerSentEvents.FrameStep | faculty/cli/client.py:159-164 | a blank line closes the pending group; any other line is added to it |
| ServerSentEvents.StreamStops | faculty/cli/client.py:160-161 | a blank line closing a group that fails ends the stream with that error |
| ServerSentEvents.Stream | faculty/cli/client.py:157-164 | the loop yields exactly the messages and the failure of the reference framing and parsing, so lines after the last blank line are never yielded |
| ServerSentEvents.CliStream | faculty/cli/client.py:143-169 | the messages and failure are the reference parse of the framed groups; each message is the parse of its group, in order; a failure ends the stream with the error of the group that failed |
| ServerSentEvents.LoadMessage | faculty/clients/server_agent.py:209-217 | the agent's message loads iff it has an id, an event and object data, and carries them unchanged |
| ServerSentEvents.SelectedSpec | faculty/clients/server_agent.py:139-144 | each update yielded is the data of a resource-update message; without one nothing is yielded |
| ServerSentEvents.SelectedAppend | faculty/clients/server_agent.py:141-144 | the updates of two runs of messages are each run's updates, in order |
| ServerSentEvents.LoadCpuUsage | faculty/clients/server_agent.py:177-184 | loads iff an object with integer `total` and `used`, holding them; a validation error iff not an object or a present field is not an integer; otherwise `TypeError` |
| ServerSentEvents.LoadMemoryUsage | faculty/clients/server_agent.py:187-196 | loads iff an object with integer `total`, `used`, `cache` and `rss`, holding them; a validation error iff not an object or a present field is not a number; otherwise `TypeError` |
| ServerSentEvents.LoadServerResources | faculty/clients/server_agent.py:199-206 | loads iff both `milliCpus` and `memoryMB` are present and load, holding their values; a nested `TypeError` escapes, and a missing `memoryMB` is a `TypeError` |
| ServerSentEvents.ResourcesRoundTrip | faculty/clients/server_agent.py:199-206 | every update the agent sends loads back as the resources it describes |
| ServerSentEvents.MissingMemoryIsTypeError | faculty/clients/server_agent.py:199-206 | an update without `memoryMB` raises `TypeError`, not a validation error |
| ServerSentEvents.LoadUntilFailureSpec | faculty/clients/server_agent.py:141-144 | the loaded items are a prefix of the items, each loaded in place, and the run stops early exactly at the first item refused, with its error |
| ServerSentEvents.LoadUntilFailureAppend | faculty/clients/server_agent.py:141-144 | loading two runs in turn reaches the second only when the first loads in full |
| ServerSentEvents.LoadStep | faculty/clients/server_agent.py:141-144 | a message with nothing to load keeps the loaded items, and one that loads appends its item |
| ServerSentEvents.LoadStop | faculty/clients/server_agent.py:141-144 | an item that does not load fixes the stream's outcome: the items so far and its error |
| ServerSentEvents.StoppedStaysStopped | faculty/clients/server_agent.py:141-144 | after loading has stopped, later messages change nothing |
| ServerSentEvents.LoadSelected | faculty/clients/server_agent.py:141-144 | the loop yields exactly the reference loads of the selected items up to the first refusal |
| ServerSentEvents.StreamServerResources | faculty/clients/server_agent.py:109-144 | the updates are the loaded resources of the resource messages parsed from the stream, up to the first that does not load; a load error ends the stream, and otherwise a parse failure does |
| CliClient.CheckResponse | faculty/cli/client.py:89-97 | an error iff the status is 4xx or 5xx, with the status and the body's `error` member, `""` when it has none, or `error from the server` when the body is not a JSON object |
| CliClient.Headers | faculty/cli/client.py:75-80 | the user agent always, and `Authorization: Bearer <token>` exactly when not authenticating by cookie |
| CliClient.Cookies | faculty/cli/client.py:82-87 | the `token` cookie exactly when authenticating by cookie |
| CliClient.CredentialsSentOnce | faculty/cli/client.py:75-87 | the token travels in exactly one of the header and the cookie |
| CliClient.Abbreviate | faculty/cli/client.py:42-44 | a text of at most 30 characters is kept; a longer one becomes its first 12, `...` and its last 12 |
| CliClient.Describe | faculty/cli/client.py:41-47 | `ServerSentEventMessage(id=..., event=..., data=...)` with the abbreviated `repr` of the data |
| Hound.StepFromJson | faculty/cli/hound.py:118-124 | a step loads iff `command`, a string `status` and `logUriPath` are present, and its status is the lower-cased one |
| Hound.StepsFromJson | faculty/cli/hound.py:103-106 | every step loads, one per element, in order |
| Hound.StepsIn | faculty/cli/hound.py:103-106 | a list reads as its steps, an empty object or string as none, and anything else fails |
| Hound.EnvironmentFromJson | faculty/cli/hound.py:100-107 | an environment loads iff its `steps` value iterates into steps that load, and holds them |
| Hound.EnvironmentsFromJson | faculty/cli/hound.py:87-90 | every environment loads, one per element, in order |
| Hound.EnvironmentsIn | faculty/cli/hound.py:87-90 | a list reads as its environments, an empty object or string as none, and anything else fails |
| Hound.ExecutionFromJson | faculty/cli/hound.py:83-91 | an execution loads iff the object has a string `status` and `environments` that iterate into environments that load; it holds the lower-cased status and those environments |
| Hound.AsciiLowerIsLower | faculty/cli/hound.py:86 | lower-casing leaves no upper-case letter |
| Hound.ExecutionStatusesLower | faculty/cli/hound.py:83-124 | every status of a loaded execution, its own and each step's, is lower-case |
| Hound.LatestEnvironmentExecution | faculty/cli/hound.py:145-154 | a 404 means no execution, any other error status raises, and a good response gives the loaded execution |
| Hound.Lookup | faculty/cli/hound.py:39 | indexing gives the member iff an object has the key; a `KeyError` for a missing key, a `TypeError` for a non-object |
| Hound.CpuUsageFromJson | faculty/cli/hound.py:37-39 | reads iff an object has `used` and `total`, holding them unchecked; the error names the first key missing |
| Hound.MemoryUsageFromJson | faculty/cli/hound.py:51-58 | reads iff an object has `used`, `rss`, `cache` and `total`, holding them; the error names the first key missing in that order |
| Hound.ResourcesFromJson | faculty/cli/hound.py:68-73 | reads iff `milliCpus` and `memoryMB` are present and read, holding both; a failure of `milliCpus` is raised first |
| Hound.ResourcesRoundTrip | faculty/cli/hound.py:61-73 | every update reads back as the figures it carries |
| Hound.AgentLoadedIsRead | faculty/cli/hound.py:68-73 | every update the server agent's client loads, the CLI reads as the same figures |
| Hound.StreamServerResources | faculty/cli/hound.py:139-143 | the updates are the read resources of the resource messages of the CLI stream, up to the first that does not read; a read error ends the stream, and otherwise a parse failure does |
| Hound.FreshAppend | faculty/cli/hound.py:166-169 | the lines yielded from two runs of lines are those of the first and then of the second from where the first left off |
| Hound.FreshAdvance | faculty/cli/hound.py:158-169 | the output so far and `last_line` stay those of all lines seen |
| Hound.FreshIncreasing | faculty/cli/hound.py:167-169 | the lines yielded are numbered above the starting line and in strictly increasing order |
| Hound.FreshKeepsMax | faculty/cli/hound.py:167-168 | `last_line` is the largest line number seen, the number of the last line yielded |
| Hound.YieldFresh | faculty/cli/hound.py:166-169 | the loop yields exactly the reference fresh lines and ends with the reference `last_line` |
| Hound.ConnectionStep | faculty/cli/hound.py:162-166 | a `finished` message ends a connection, a `log` message contributes its lines, any other is skipped |
| Hound.FollowConnection | faculty/cli/hound.py:161-169 | one connection yields the fresh lines of its log messages up to `finished`, and reports whether it finished |
| Hound.StreamStep | faculty/cli/hound.py:159-173 | after a connection that ends normally or with `finished` no more lines are processed; after a broken one the next connection's lines follow |
| Hound.ProcessedStep | faculty/cli/hound.py:170-173 | only a broken connection that did not finish is followed by a reconnect |
| Hound.StreamStepLogs | faculty/cli/hound.py:156-173 | the lines yielded over all connections are the fresh lines of everything processed, so a reconnect repeats no line |
| Hound.StepLogsIncreasing | faculty/cli/hound.py:156-173 | the line numbers yielded strictly increase |
| VersionFormats.DigitRun | faculty/clients/environment.py:74 | `\d+` read as far as it goes: the digits at the front, followed by no digit |
| VersionFormats.ParseRelease | faculty/clients/environment.py:74 | `\d+(?:\.\d+)*`: one or more numbers joined by dots that rebuild the front of the text, with the rest after it |
| VersionFormats.ParseTagged | faculty/clients/environment.py:74 | `(?:\.post\d+)?` and `(?:\.dev\d+)?`: the tag and its number when present, nothing when the tag is absent |
| VersionFormats.ParsePre | faculty/clients/environment.py:74 | `(?:(?:a\|b\|rc)\d+)?`: the pre-release tag and number when present |
| VersionFormats.ParseEpoch | faculty/clients/environment.py:74 | `(?:\d+\!)?`: the epoch and the rest, which rebuild the text |
| VersionFormats.ParsePythonVersion | faculty/clients/environment.py:73-75 | a recognised identifier is the rendering of the well-formed version it is read as |
| VersionFormats.ParseReleaseOf | faculty/clients/environment.py:74 | a rendered release followed by text that does not continue it is read back as itself |
| VersionFormats.ParseTaggedOf | faculty/clients/environment.py:74 | a tag and number followed by a non-digit are read back as themselves |
| VersionFormats.ParseDevOf | faculty/clients/environment.py:74 | a rendered development part is read back |
| VersionFormats.ParsePostOf | faculty/clients/environment.py:74 | a rendered post-release part is read back, leaving the development part |
| VersionFormats.ParsePreOf | faculty/clients/environment.py:74 | a rendered pre-release part is read back, leaving the rest |
| VersionFormats.ParseEpochOf | faculty/clients/environment.py:74 | a rendered epoch is read back, leaving the release and the rest |
| VersionFormats.ParseRender | faculty/clients/environment.py:73-75 | every well-formed version is recognised, and read back as itself |
| VersionFormats.ValidPythonVersionIff | faculty/clients/environment.py:73-75 | an identifier is accepted iff it is the rendering of a well-formed version |
| VersionFormats.PlainVersionValid | faculty/clients/environment.py:73-75 | `1.0.0` is a valid Python version |
| VersionFormats.FullVersionValid | faculty/clients/environment.py:73-75 | `2!1.0rc1.post2.dev3`, with every optional part, is valid |
| VersionFormats.WordVersionInvalid | faculty/clients/environment.py:73-75 | `invalid-identifier` and the empty text are refused |
| VersionFormats.ShortVersionValid | faculty/clients/environment.py:73-75 | `1.0` is valid |
| VersionFormats.AptClassChars | faculty/clients/environment.py:76 | the class holds letters, digits, `\`, `+`, `,`, `-`, `.`, `/`, `:` and `~`, the range `+-:` taking in `,`, `/` and the digits |
| VersionFormats.AptVersionExamples | faculty/clients/environment.py:76 | `1.0.0` and `1:2.30-1ubuntu4~18.04` are valid apt versions; blanks and the empty text are not |
| VersionFormats.PythonTrailingNewline | faculty/clients/environment.py:73-75 | the pattern as written accepts `1.0` followed by a newline, which the corrected check refuses |
| VersionFormats.AptTrailingNewline | faculty/clients/environment.py:76 | the apt pattern as written accepts `1.0` followed by a newline, which the corrected check refuses |
| VersionFormats.NoTrailingNewline | faculty/clients/environment.py:73-75 | no valid Python version ends in a newline |
| VersionFormats.RenderEndsInDigit | faculty/clients/environment.py:74 | a rendered version ends in a digit |
| EnvironmentSchemas.LoadAll | faculty/clients/environment.py:291-293 | a list loads iff every item does, one value per item, in order |
| EnvironmentSchemas.DumpAll | faculty/clients/environment.py:291-293 | a list dumps iff every item does, one dump per item, in order |
| EnvironmentSchemas.LoadDumpAll | faculty/clients/environment.py:291-293 | items that each load back from their dumps make a list that loads back |
| EnvironmentSchemas.LoadStrings | faculty/clients/environment.py:286-288 | a list of strings loads iff every item is a string |
| EnvironmentSchemas.StringsRoundTrip | faculty/clients/environment.py:286-288 | a dumped list of strings loads back |
| EnvironmentSchemas.ConstraintFromText | faculty/clients/environment.py:207 | only `>=` and `==` are constraints, and each is read as itself |
| EnvironmentSchemas.ConstraintRoundTrip | faculty/clients/environment.py:207 | every constraint is read back from its text |
| EnvironmentSchemas.LoadVersion | faculty/clients/environment.py:206-217 | a version loads iff it has a constraint and an identifier that passes its format's check |
| EnvironmentSchemas.DumpVersion | faculty/clients/environment.py:219-222 | a version dumps iff its identifier passes the check |
| EnvironmentSchemas.VersionRoundTrip | faculty/clients/environment.py:206-241 | a version that dumps loads back as itself |
| EnvironmentSchemas.LoadVersionField | faculty/clients/environment.py:247-251 | `"latest"` passes through; anything else loads as a pinned version or fails |
| EnvironmentSchemas.DumpVersionField | faculty/clients/environment.py:253-257 | `"latest"` passes through; a pinned version dumps through the version schema |
| EnvironmentSchemas.VersionFieldRoundTrip | faculty/clients/environment.py:244-273 | a version field dumps iff it is `"latest"` or its identifier is valid, and then loads back as itself |
| EnvironmentSchemas.VersionFieldExamples | faculty/clients/environment.py:244-273 | `"latest"` passes both ways; `1.0.0` dumps in both formats; `invalid-identifier` and blanks are refused |
| EnvironmentSchemas.LoadPackage | faculty/clients/environment.py:276-282 | a package loads iff it has a string `name` and a `version` that loads |
| EnvironmentSchemas.DumpPackage | faculty/clients/environment.py:276-278 | a package dumps iff its version does |
| EnvironmentSchemas.PackageRoundTrip | faculty/clients/environment.py:276-339 | a package that dumps loads back as itself |
| EnvironmentSchemas.PackagesRoundTrip | faculty/clients/environment.py:291-293 | a package list that dumps loads back as itself |
| EnvironmentSchemas.PackagesDump | faculty/clients/environment.py:291-293 | a package list dumps iff every pinned identifier is valid for its format |
| EnvironmentSchemas.LoadStringsOrEmpty | faculty/clients/environment.py:286-290 | a missing list means `[]`, and a present one loads as a list of strings |
| EnvironmentSchemas.LoadPip | faculty/clients/environment.py:285-297 | `packages` is required, and a missing `extraIndexUrls` is `[]` |
| EnvironmentSchemas.LoadConda | faculty/clients/environment.py:300-308 | `packages` is required, and a missing `channels` is `[]` |
| EnvironmentSchemas.PipRoundTrip | faculty/clients/environment.py:285-297 | a pip section that dumps loads back as itself |
| EnvironmentSchemas.CondaRoundTrip | faculty/clients/environment.py:300-308 | a conda section that dumps loads back as itself |
| EnvironmentSchemas.MissingListsDefault | faculty/clients/environment.py:286-301 | pip and conda sections without their optional lists load with empty ones |
| EnvironmentSchemas.LoadPythonEnvironment | faculty/clients/environment.py:311-317 | loads iff both `pip` and `conda` are present and load |
| EnvironmentSchemas.PythonEnvironmentRoundTrip | faculty/clients/environment.py:311-317 | a Python environment that dumps loads back as itself |
| EnvironmentSchemas.LoadOptionalEnvironment | faculty/clients/environment.py:321-326 | a missing or `null` `Python2`/`Python3` is None |
| EnvironmentSchemas.LoadPythonSpecification | faculty/clients/environment.py:320-330 | `{}` loads with neither Python version |
| EnvironmentSchemas.PythonSpecificationRoundTrip | faculty/clients/environment.py:320-330 | a Python specification that dumps loads back as itself |
| EnvironmentSchemas.OptionalEnvironmentRoundTrip | faculty/clients/environment.py:321-326 | a dumped optional environment under its key loads back |
| EnvironmentSchemas.MissingPythonDefaults | faculty/clients/environment.py:321-326 | with only one Python version present, the other is None |
| EnvironmentSchemas.LoadSpecification | faculty/clients/environment.py:358-365 | a specification loads only when `apt`, `bash` and `python` are all present |
| EnvironmentSchemas.SpecificationRoundTrip | faculty/clients/environment.py:333-365 | a specification that dumps loads back as itself |
| Jobs.ValidateInstanceSize | faculty/clients/job.py:509-520 | a definition is valid exactly when an instance size is given if and only if the size type is `"custom"`; each of the two violations has its own message |
| Jobs.LoadInstanceSize | faculty/clients/job.py:461-467 | an instance size loads exactly from an object with integer `milliCpus` and `memoryMb` |
| Jobs.ParameterTypeFromText | faculty/clients/job.py:472 | a parameter type read from text writes back as that text |
| Jobs.LoadJobParameter | faculty/clients/job.py:470-478 | a parameter loads only from an object with string `name` and `default` and boolean `required` |
| Jobs.LoadEach | faculty/clients/job.py:483 | a nested list loads exactly when every item loads, item by item in order |
| Jobs.DumpEach | faculty/clients/job.py:483 | a dumped list has one dumped item per element, in order |
| Jobs.LoadDumpEach | faculty/clients/job.py:483 | a list whose items round-trip round-trips as a whole |
| Jobs.LoadJobCommand | faculty/clients/job.py:481-487 | a command loads only from an object with a string `name` and a `parameters` member |
| Jobs.ImageTypeFromText | faculty/clients/job.py:493-495 | an image type read from text writes back as that text |
| Jobs.LoadOptionalInstanceSize | faculty/clients/job.py:502-504 | a missing `instanceSize` loads as no size |
| Jobs.LoadJobDefinition | faculty/clients/job.py:490-524 | a definition loads exactly when its fields load and keep the instance-size rule, so every loaded definition keeps it |
| Jobs.ParameterRoundTrip | faculty/clients/job.py:470-478 | every job parameter loads back from its dump as itself |
| Jobs.CommandRoundTrip | faculty/clients/job.py:481-487 | every command, with all its parameters, loads back from its dump as itself |
| Jobs.DumpedMembers | faculty/clients/job.py:490-507 | a dumped definition has exactly the seven wire members, each holding its field under its data key |
| Jobs.LoadMembers | faculty/clients/job.py:490-507 | any object holding those members, whatever else it holds, loads as the definition's fields |
| Jobs.DefinitionFieldsRoundTrip | faculty/clients/job.py:490-507 | a definition's fields load back from its dump as themselves |
| Jobs.DefinitionRoundTrip | faculty/clients/job.py:490-524 | a definition that keeps the instance-size rule loads back from its dump as itself, and one that breaks it is refused on load |
| Jobs.EmptyObjectRejected | faculty/clients/job.py:461-645 | every required-field schema refuses the empty object |
| Jobs.LoadPage | faculty/clients/job.py:628-634 | a page loads exactly from an object with integer `start` and `limit` |
| Jobs.LoadOptionalPage | faculty/clients/job.py:640-641 | a missing page loads as no page |
| Jobs.LoadPagination | faculty/clients/job.py:637-645 | a pagination needs integer `start` and `size`, and a missing `previous` or `next` is no page |
| Jobs.PaginationRoundTrip | faculty/clients/job.py:637-645 | every pagination, with or without its pages, loads back from its wire form as itself |
| Jobs.CreatePayload | faculty/clients/job.py:210-216 | the create body has exactly the members `meta` and `definition` |
| Jobs.CreatePayloadReadBack | faculty/clients/job.py:190-218 | the create body's `meta` holds the name and description, and its `definition` loads back as the given definition |
| Jobs.CreateRunPayload | faculty/clients/job.py:316-317 | no value sets sends a single empty set |
| Jobs.SetRoundTrip | faculty/clients/job.py:321-325 | one value set's `{name, value}` objects read back as that set, in order |
| Jobs.CreateRunRoundTrip | faculty/clients/job.py:273-330 | the create-run body carries exactly the given value sets, in order, each entry in its own object; none given is one empty set |
| Jobs.ListRunsParams | faculty/clients/job.py:363-368 | `start` and `limit` are sent exactly when given, with their values, and nothing else is |
| Servers.MakeResources | faculty/clients/server.py:282-298 | a `"custom"` size type without a size is the one error; with a size it gives shared resources of that size, and any other type gives dedicated resources of that node type |
| Servers.LoadServerSize | faculty/clients/server.py:243-250 | a server size loads exactly from an object with integer `milliCpus` and `memoryMb` |
| Servers.LoadResources | faculty/clients/server.py:266-298 | loaded resources need a string `instanceSizeType`, are always shared or dedicated, and are dedicated when no `instanceSize` is sent |
| Servers.SharedReadBack | faculty/clients/server.py:117-124 | the custom size members `create` sends load back as shared resources with those sizes |
| Servers.DedicatedReadBack | faculty/clients/server.py:125-126 | a node type sent alone loads back as dedicated resources of that type, unless it is `"custom"`, which is then refused |
| Servers.Strings | faculty/clients/server.py:137-139 | the environment ids are sent as a list of their strings, in order |
| Servers.CreatePayload | faculty/clients/server.py:117-139 | resources of neither kind raise the `Invalid server_resources` error; otherwise the body names the server type, the size members follow the resources' kind, and name, image version and environment ids are sent exactly when truthy, and the resources load back from the body unless a dedicated node type is itself `"custom"` |
| Servers.ListParams | faculty/clients/server.py:205 | the list query is the name alone when one is given, and none otherwise |
| Galleon.NewServer | faculty/cli/galleon.py:34-71 | a server is built exactly when a custom machine has both sizes and any other machine neither; it then holds the arguments as given and keeps that rule, and each violation has its own `ValueError` message |
| Galleon.Get | faculty/cli/galleon.py:106-133 | indexing JSON gives the member exactly when the value is an object that has the key, a `KeyError` for a missing key and a `TypeError` for a non-object |
| Galleon.ServiceFromJson | faculty/cli/galleon.py:150-157 | a service is read exactly from an object with `name`, `host`, `port` and `scheme`, holding those four values |
| Galleon.ServicesFromJson | faculty/cli/galleon.py:106 | a list of services is read exactly when every item reads, item by item in order |
| Galleon.ServicesIn | faculty/cli/galleon.py:106 | a list reads as its services, an empty object or string as none; a non-empty object or string fails as its first key or character does, and anything else is a `TypeError` |
| Galleon.SizeFields | faculty/cli/galleon.py:108-121 | the machine type and sizes are those of the current format when it reads, the legacy top-level sizes when it fails with a `KeyError`, and any other failure propagates |
| Galleon.LegacyServer | faculty/cli/galleon.py:117-121 | a server without `instanceSizeType` takes the legacy sizes and is a custom machine |
| Galleon.CustomWithoutSizes | faculty/cli/galleon.py:111-121 | a custom machine whose `instanceSize` lacks `milliCpus` falls back to the legacy sizes, and one whose `instanceSize` is not an object fails with `TypeError` |
| Galleon.ServerFromJson | faculty/cli/galleon.py:104-135 | a server read from JSON keeps the size rule, carries the settled machine type and sizes, the services its `services` value iterates into, and its status and id from their members |
| Galleon.ServersFromJson | faculty/cli/galleon.py:173 | a list of servers is read exactly when every item reads, item by item in order |
| Galleon.ServersIn | faculty/cli/galleon.py:179 | a list reads as its servers, an empty object or string as none, and anything else fails; every server read is valid |
| Galleon.WithStatusKeeps | faculty/cli/galleon.py:182 | the status filter keeps exactly the servers with that status, never grows the list, and keeps a list whose servers all have it unchanged |
| Galleon.WithStatusAppend | faculty/cli/galleon.py:182 | filtering distributes over concatenation, so the servers keep their order |
| Galleon.GetServers | faculty/cli/galleon.py:176-183 | an error status is the service error; otherwise the call succeeds iff the body iterates into servers, and then the result is those servers, filtered by status when one is given; every server is valid |
| Galleon.GetServersKeeps | faculty/cli/galleon.py:179-183 | without a status every server read is returned; with one, exactly the servers read that have it |
| Galleon.GetService | faculty/cli/galleon.py:93-97 | a service is found exactly when one has the name, and it is the first such; otherwise the `RuntimeError` names the missing service |
| Galleon.CreateServerPayload | faculty/cli/galleon.py:203-229 | a size-rule violation raises its `ValueError`; otherwise the body holds the server type, the machine type, both sizes or `null`, the optional members exactly when truthy, and reads back as the machine type and sizes it was made from |
| Galleon.SizeMembersReadBack | faculty/cli/galleon.py:218-222 | the size members `create_server` sends read back through `Server.from_json`'s size logic as its arguments |
| Galleon.CreatedServerId | faculty/cli/galleon.py:230-235 | the new server's id is returned exactly when the response succeeds with an object holding `instanceId`, and a missing id is the `GalleonError` |
| Workspace.NodeTypeFromText | faculty/clients/workspace.py:77-79 | a node type is read exactly from `"file"` or `"directory"` and writes back as that text |
| Workspace.FieldsFitIff | faculty/clients/workspace.py:95-102 | given the common fields, a directory fits exactly when it has both `truncated` and `content`, a file exactly when it has neither |
| Workspace.LoadNode | faculty/clients/workspace.py:85-111 | a loaded node comes from an object with the required fields and a known type, is a directory exactly when the type says so and passes the field check; a directory's content is its list loaded node by node |
| Workspace.NodeRoundTrip | faculty/clients/workspace.py:85-111 | every file tree loads back from its JSON as itself, at every depth |
| Workspace.WrongFieldsRejected | faculty/clients/workspace.py:101-102 | a file with a directory's field or a directory missing one is refused |
| Workspace.ListParams | faculty/clients/workspace.py:72 | the list query carries exactly `depth` and `prefix` with the given values |
| Workspace.ListContent | faculty/clients/workspace.py:73-74 | the listed tree is the response's `content`, one loaded node per item, in order |
| Workspace.ListRoundTrip | faculty/clients/workspace.py:114-122 | a listing of dumped nodes gives those nodes back |
| Notifications.ErrorLine | faculty/clients/notification.py:122 | an entry gives a line exactly when it is an object with `error` and `path`; a non-object is a `TypeError`, a missing key a `KeyError` |
| Notifications.ErrorLinesConcat | faculty/clients/notification.py:121-122 | the lines of two runs of entries are those of the first followed by those of the second, and the first failure wins |
| Notifications.ErrorItems | faculty/clients/notification.py:121 | a list's entries are its items, and any failure to iterate is a `TypeError` |
| Notifications.PublishingErrorMessage | faculty/clients/notification.py:113-127 | a non-object body is a `TypeError`; a missing code or key gives the unexpected-response message; the two plain codes give the body's own `error`; the rendering code gives the header and one line per entry; any other code gives the unexpected-code message |
| Notifications.ExtractPublishingErrorMsg | faculty/clients/notification.py:113-127 | the `msg +=` loop builds exactly the message the reference definition gives |
| Notifications.EntryLine | faculty/clients/notification.py:122 | a well-formed entry adds a tab-indented line naming the error and its file |
| Notifications.TwoLines | faculty/clients/notification.py:121-122 | two well-formed entries give their two lines in order |
| Notifications.RenderingBody | faculty/clients/notification.py:118-123 | a rendering failure whose entries all give lines has the header followed by those lines |
| Notifications.RenderingMessageExample | tests/clients/test_notification.py:99-120 | the two-error rendering failure gives the message the tests expect |
| Notifications.IsOperationEvent | faculty/clients/notification.py:74-78 | an event is kept exactly when its name has the operation's prefix and its data is an object naming the project; any other name is dropped without decoding |
| Notifications.FailureOf | faculty/clients/notification.py:148-188 | a failed event whose data does not decode raises the decode error, and an add-to-project failure that decodes raises the fixed apply message |
| Notifications.WaitForCompletion | faculty/clients/notification.py:148-188 | the wait ends normally when no event is decisive and otherwise with the outcome of the first decisive event, for either operation |
| Notifications.FirstDecisive | faculty/clients/notification.py:150-156 | the first decisive event is the only one before which none is |
| Notifications.OtherProjectIgnored | faculty/clients/notification.py:100-106 | events about another project are passed over, whatever they say |
| Notifications.PublishOutcomes | faculty/clients/notification.py:148-156 | a publication's COMPLETED event ends the wait normally, and its FAILED event with a plain error raises that error |
| Context.GetEnvironAsType | faculty/context.py:108-120 | a missing variable gives nothing and no warning, a good one its parsed value, and a bad one nothing with a warning quoting the variable and its value |
| Context.GetContext | faculty/context.py:82-105 | every context field is read from its own variable with its own type |
| Context.EmptyEnvironment | faculty/context.py:82-120 | with no variables set every field is empty |
| Context.StringVariablesParse | faculty/context.py:93 | a string variable is never badly formatted |
| Context.BadProjectId | faculty/context.py:91 | a badly formatted project id leaves the project unknown, as if unset |
| UtilResolvers.MakeUuid | faculty/_util/resolvers.py:24-33 | a UUID passes through unchanged and a string is parsed |
| UtilResolvers.MatchesEmpty | faculty/_util/resolvers.py:47 | nothing matches exactly when no project has the name |
| UtilResolvers.MatchesUnique | faculty/_util/resolvers.py:47 | a name only one project has matches that project alone |
| UtilResolvers.MatchesSeveral | faculty/_util/resolvers.py:47 | a name two projects have matches at least twice |
| UtilResolvers.MatchesShape | faculty/_util/resolvers.py:47-53 | the match list is empty, a singleton or longer exactly by how many projects have the name |
| UtilResolvers.ProjectFromName | faculty/_util/resolvers.py:36-53 | the one project with the name is returned; no project and several projects with it are the two `ValueError`s |
| UtilResolvers.ResolveProjectId | faculty/_util/resolvers.py:56-99 | no argument gives the context's project or the `ValueError`, a UUID or parseable string gives that id without lookup, and any other string is looked up by name |
| UtilResolvers.NoContextNoDefault | faculty/_util/resolvers.py:86-92 | outside the platform a project must be named |
| UtilResolvers.ResolveByName | faculty/_util/resolvers.py:97-99 | a name resolves to the id of the only project with that name |
| Resolvers.ResolveProjectIdAsWritten | faculty/resolvers.py:48-62 | as written: the context branch and the UUID branch as in the newer resolver, but every name raises `TypeError` |
| Resolvers.ResolveProjectId | faculty/resolvers.py:48-62 | corrected: a name is looked up among the accessible projects |
| Resolvers.AgreesWithUtilResolver | faculty/resolvers.py:48-62 | the corrected resolver agrees with the newer one whenever a project is given, and succeeds exactly when it does otherwise |
| Resolvers.NameLookupFails | faculty/resolvers.py:62 | a name only one project has fails as written and resolves to that project's id once corrected |

## Left out

- Network and file I/O are not modelled. This covers `requests`, boto3 and sseclient traffic, presigned transfers, reading and writing cache and credentials files, and `chmod`/`makedirs`. Service responses, file contents and the environment are inputs: maps, sequences, or functions from the call number to the answer.
- The clock is the integer parameter `now`, and sleeps are recorded rather than taken. The randomised `get_exponential_backoff` is the input `backoff(n)`.
- `json.loads`, `uuid.UUID(...)`, `int(...)` of a string, `repr`/`str` of JSON values and `dateutil`/ISO-8601 dates are parameters or kept as the text sent. Their own behaviour is not modelled.
- marshmallow is not modelled as a library. Each schema is modelled as the mapping it declares: a failed load is `None` (or a named error where the caller tells errors apart), and the exact marshmallow error messages are not reproduced.
- `Jobs.LoadInstanceSize`, `Jobs.LoadJobParameter`, `Jobs.LoadPage`, `Jobs.LoadPagination`, `Servers.LoadServerSize`, `Workspace.LoadNode`, `ServerSentEvents.LoadCpuUsage` and `ServerSentEvents.LoadMemoryUsage` accept only a JSON integer for an `Integer`/`Number` field and only a JSON boolean for a `Boolean` field. marshmallow also coerces text such as `"5"` or `"true"`, and those inputs are refused here.
- Integers in JSON are `JInt`. Floats are not modelled, and metric values are integers.
- Python's `\d` and `int()` also accept non-ASCII digits. The model accepts ASCII digits only. Likewise `lower()` is `Strings.AsciiLower`, which folds ASCII letters only.
- `Shell.Quote` models the Python 2 branch of `faculty/cli/shell.py`. On Python 3 the module re-exports `shlex.quote`, which uses the same safe set and the same quoting, and is not part of this model.
- Jobs: the UUID and date schemas of `faculty/clients/job.py` are not modelled. These are the metadata, summary, job, run, subrun, step-execution and list-runs response schemas (lines 438-458, 527-625 and 648-654).
- `faculty/clients/object.py` response schemas (lines 427-465) are not modelled. They are declarative field lists without decisions.
- The following client endpoints have no logic beyond building a URL, so they are not modelled:
  - experiment `get`, `list`, `delete`, `restore`, `get_run` and `update_run_info`;
  - environment `list`, `get`, `update`, `create` and `delete`;
  - job `get`, `update_metadata`, `update_definition`, `get_run`, `get_subrun` and `cancel_run`;
  - server `get`, `delete`, `list_for_user`, `apply_environment` and `get_ssh_details`;
  - galleon `get_all_servers`, `get_server`, `terminate_server` and `ssh_details`.
- `Hound.StreamServerResources` and `ServerSentEvents.StreamServerResources` share the filter `ServerSentEvents.Selected` and the loading loop `ServerSentEvents.LoadSelected`. The CLI reads each update with `ServerResources.from_json`, which checks only the keys. The server agent's client validates it with `_ServerResourcesSchema`.
- The `hound_url` property and the `__repr__` methods only format text, and are not modelled.
- Live event streams are not modelled as infinite. `FacultyService._stream` opens one connection and reads it to its end, with no reconnection; its lines are a finite sequence. The reconnect loop of the hound log stream is a finite sequence of connections, and a notification stream is a finite sequence of events.
- `FacultyConfig.DefaultCredentialsPath`, `FacultyConfig.ResolveCredentialsPath`, `FacultyConfig.ResolveProfileName`, `FacultyConfig.ResolveProfile` and `CliConfig.CliProfileName` do not model the deprecation notices. These are the `warnings.warn` calls for legacy credentials (faculty/config.py:104-110) and for a deprecated environment variable (faculty/config.py:119-125), and the `click.secho` notice for `FACULTY_ENV` (faculty/cli/config.py:28-36). They only write to stderr and change no result.
- `Servers.MakeResources`, `Servers.LoadResources` and `Servers.LoadServerSize` model the loads the schemas declare, not the code as written. faculty/clients/server.py:249, 262, 282, 318 and 330 define their `post_load` hooks without `**kwargs`. faculty/clients/base.py:16 imports `EXCLUDE`, which only marshmallow 3 has, and marshmallow 3 passes `many` and `partial` to every load hook. So as written every `_ServerSchema().load`, and every load of a server size, raises `TypeError`.
- `ExperimentSchemas.SerialiseAs` refuses a filter value whose type does not match the field. marshmallow would coerce some such values, for example an integer into a string field.
- The `faculty/clients/experiment/` package has no `RunStatusFilter`. The shared model keeps it, as the older module has it.
- Python's `hash(profile)` as the dictionary key of the token stores is replaced by the profile itself, an injective key.
- The `lru_cache` on `faculty/_util/resolvers.py`'s `resolve_project_id` is not modelled. The resolver's result is a function of its inputs, so memoising it cannot change the answer.
- `Context.GetContext` drops the warnings of the individual lookups. `Context.GetEnvironAsType` returns them, one variable at a time.
- The module-level `token()`, `auth_headers()`, `user_id()` and `username()` helpers of `faculty/cli/auth.py` are not modelled separately. Each only calls the corresponding `CliAuth.CliSession` method on the held session.
- `sherlockml/datasets/__init__.py`'s `mv` is `cp` followed by `rm`, each modelled with its guard. The composition itself is not modelled.
- `glob` (which uses `fnmatch`) in both datasets packages is not modelled.
- The `sherlockml` `BaseClient` constructor and `http_session` are the same code as faculty's, and are modelled once by `FacultyBase.CheckServiceName` and `FacultyBase.BaseClient`.
- `Hound.LatestEnvironmentExecution`: a success body that does not parse gives one placeholder error with status 0. In Python it raises whatever `from_json` raises on that body.
- `SherlockDatasets.CreateParentDirectories` is built on the corrected `SherlockPath.ProjectParentDirectories` of the first Findings row. For a file directly under the root, such as `put("/a.csv")`, its only parent is `/`, which the loop skips (sherlockml/datasets/__init__.py:223-225), so it puts no key. The code as written has the parents `/` and `//`, and puts the key `<project id>//` unless `//` is listed.
- `EnvironmentSchemas.ValidIdentifier`, `EnvironmentSchemas.LoadVersion` and `EnvironmentSchemas.DumpVersion` use the corrected version check of the second Findings row and refuse an identifier that ends in a newline. The code as written accepts `"1.0\n"`.
- `Workspace.ListContent` checks `project_id` as a string and keeps the modification time as the text sent. The UUID and date parsing of those fields is not modelled.
- The round trip `bucketpath_to_projectpath(projectpath_to_bucketpath(p, id)) == rationalise_projectpath(p)` fails for a path with exactly two leading slashes, such as `//a`. POSIX `normpath` keeps those two slashes, and the bucket mapping drops one. `SherlockPath.BucketRoundTripTwoSlashes` states the exception. The round trip is proved for every other path.
- `CliAuth.TokenFromResponse` refuses two responses that `_get_token` accepts (faculty/cli/auth.py:131-132).
  - An `access_token` that is not a string is refused, since the cached token is modelled as a string; Python returns it as it is.
  - An `expires_in` that `float()` reads as a fraction or with an exponent, such as `"1.5"`, `"1e3"` or `"inf"`, is refused, since floats are not modelled.
- `ExperimentSchemas.SerialiseAs` sends an integer param value or a metric value as `JInt`. marshmallow's `fields.Number` and `fields.Float` send `float(value)`, so `5` goes out as `5.0`; floats are not modelled.
- `ExperimentSchemas.DumpSingle`, `ExperimentSchemas.DumpFilter`, `ExperimentSchemas.DumpConditions`, `ExperimentSchemas.DumpCompound`, `ExperimentSchemas.DumpRunQuery`, `ExperimentClient.ListRuns`, `ExperimentClient.QueryRuns`, `ExperimentClient.DeleteRuns`, `ExperimentClient.RestoreRuns`, `ExperimentClient.CreateRun`, `ExperimentRuns.FollowPages` and `ExperimentRuns.Query` follow the hooks of `faculty/clients/experiment.py`, which take `**kwargs`.
  - The package that `import faculty.clients.experiment` loads declares its hooks without `**kwargs`. These are the `post_load` hooks at faculty/clients/experiment/_schemas.py:73, 84, 95, 104, 113, 129, 151, 174, 376, 389, 406 and 417, and the `pre_dump` `check_operator` hooks at lines 231, 242, 253, 271 and 283.
  - Under marshmallow 3, which passes `many` to every hook and `partial` to load hooks (faculty/clients/base.py:16 imports `EXCLUDE`), each run, page or metric load through the package raises `TypeError`, and so does each dump of a checked filter. This is not modelled.
- `Sessions.LegacySessionRegistry.GetSession` models only the memoisation of the legacy `faculty/session.py`, which the `faculty/session/` package shadows on import.
  - Its `post_load` hooks `make_access_token` (:38) and `make_access_token_store` (:71) take no `**kwargs`. Under marshmallow 3, loading a token cache file from disk raises `TypeError`, which the `except (ValueError, ValidationError)` at :121 does not catch. This is not modelled.

## Findings

| source | as written | input that shows it | evidently intended | confidence | as-written member | corrected member |
|---|---|---|---|---|---|---|
| sherlockml/datasets/path.py:87-93 | the parent of a file directly under the root is `/`, whose `split("/")` gives two empty parts, so the loop adds `/` and `//` | `project_parent_directories("/a.csv")` gives `["/", "//"]` | `["/"]`: the root is the only parent | not executed | SherlockPath.AsWrittenTopLevelFile | SherlockPath.ProjectParentDirectories |
| faculty/clients/environment.py:73-76 | both version patterns end in `$`, which `re.match` also lets match before a final newline | `"1.0\n"` passes the Python and the apt validation | reject any trailing newline, as the structured grammar does | not executed | VersionFormats.PythonTrailingNewline | VersionFormats.NoTrailingNewline |
| faculty/resolvers.py:62 | `_project_from_name(project)` binds the name to `session` and leaves `name` unbound | `resolve_project_id(session, "my project")`, a name that is not a UUID, raises `TypeError` | look the name up with the session, as `faculty/_util/resolvers.py:99` does | not executed | Resolvers.NameLookupFails | Resolvers.ResolveProjectId |
| faculty/datasets/retries.py:37-46 | `get_exponential_backoff` calls `random.random(0, 1)`, but `random.random` takes no arguments; the next line calls `sys.sleep`, which does not exist | a first response with a retryable status and `max_attempts >= 1` raises `TypeError` on the first retry, after one request | `random.random()` scaled by `2 ** (n - 1)` and `time.sleep(delay)`: up to `max_attempts + 1` requests | not executed | Retries.MaybeRetryAsWritten | Retries.MaybeRetry |
| faculty/clients/experiment.py:883-885 | the unsupported-type branch calls `self.make_error("unsupported_type")`, which returns the error without raising it, so line 885 reads `field` unbound | a param filter whose value is a UUID, run status or date-time, under any operator but `defined`, escapes with `UnboundLocalError` | `raise self.make_error("unsupported_type")`, reporting "Param values must be of type str, int or float." as `faculty/clients/experiment/_schemas.py:199` does | not executed | ExperimentSchemasAsWritten.SerialiseParamAsWritten | ExperimentSchemas.SerialiseAs |
