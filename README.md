# Fission core, modelled in Dafny

This project models the sequential core of Fission, a serverless function framework that runs on Kubernetes:

- **The fetcher sidecar.** It places a function's code in the container's shared volume. Content goes to `<filename>.tmp` first. URL-referenced packages are checked against their SHA-256 checksum. Only after that is the temporary file renamed to its final name.
- **The executor client's tap batcher.** It coalesces "still in use" notifications and flushes them on a timer. It also normalises the executor URL and handles reply statuses.
- **The pool manager's cache key** and its controller URL normalisation.
- **The translation of metadata and resources** between the Kubernetes shape and Fission's own shape.
- **The resource-version records** kept next to each resource.
- **The error-code table and the package and checksum kinds.**

Modules, one file each:

| module | file | contents |
|---|---|---|
| `Wrappers` | `wrappers.dfy` | `Option`, `Result`, and `Outcome`. An `Outcome` is a value or a Go nil-pointer panic. |
| `Text` | `text.dfy` | `strings.TrimSuffix`, `strings.HasSuffix`, and `filepath.Join` of a directory and a file name. |
| `Hex` | `hex.dfy` | `encoding/hex.EncodeToString`. |
| `Kube` | `kube.dfy` | The Kubernetes `ObjectMeta` and `OwnerReference` shapes, and a TPR resource. TPR means ThirdPartyResource, the Kubernetes mechanism Fission stores its resources in. |
| `Types` | `types.dfy` | The records, constants and error table of `types.go`. |
| `Fetcher` | `fetcher.dfy` | The load protocol. `Load` is the whole handler as a function. The class `Fetcher.Fetcher` has the method `Handler`, which does the same work step by step on a `Volume` object. |
| `ExecutorClient` | `client.dfy` | The class `Client`. Its methods `TapService`, `Tick` and `Dispatch` are the steps of the service goroutine and the batch goroutine. |
| `Poolmgr` | `poolmgr.dfy` | `CacheKey` and `ControllerBaseUrl`. |
| `Translator` | `translator.dfy` | The translations. Loops are methods whose contracts state their result, most of them by proving them equal to the functions `MapAll`, `MetadataFrom`, `MetadataTo`, `ResourceFrom` and `ResourceTo`. |
| `Versions` | `versions.dfy` | `objName` and the requests the four operations send. |

How Go behaviour is modelled:

- **Panics.** A Go nil dereference is a result (`NilDereference`, or `Panicked` for the HTTP handler), never a precondition.
- **The outside world is a parameter:**
  - downloads: `Io.fetch`;
  - the function store: `Io.getFunction`;
  - SHA-256: `Io.sha256`;
  - write and rename failures: `Io.writeFails` and `Io.renameFails`;
  - failures to open or read the downloaded file back for its checksum: `Io.readFails`;
  - HTTP for the executor client: `Transport`;
  - the API server: `Versions.Rest`.
- **The four resource kinds.** Functions, environments, HTTP triggers and Kubernetes watch triggers differ only in their spec type. So `FunctionFromTPR`, `EnvironmentFromTPR`, `HttpTriggerFromTPR` and `KubernetesWatchTriggerFromTPR`, with their `ToTPR` counterparts, are the generic `ResourceFrom`/`ResourceTo` (and the methods `ResourceFromTPR`/`ResourceToTPR`) with the kind's spec type as the type argument. The four list translations are written out (`Translator.FunctionListFromTPR` and the other three): each calls the generic `ListFromTPR` with its kind's Go zero spec (`Types.ZeroFunctionSpec` and the other three), which fills the leading half of the doubled list.

Two behaviours of the handler worth knowing:

- **The temporary file after a failed checksum.** When the downloaded package fails its checksum, the handler answers 400 and leaves `<filename>.tmp` in the volume (environments/fetcher/fetcher.go:174-179). Only the rename puts content under the final name, so the final name is untouched (`Fetcher.PackageDownloadOrChecksumFailureRejected`, `Fetcher.FinalTouchedOnlyOnSuccess`).
- **Unexported fields.** `fetchType` and `function` are unexported fields of `FetchRequest`, so JSON decoding leaves them empty. A request decoded from JSON therefore has the empty fetch type, and the handler looks up the function named by an empty metadata. If that lookup fails, the answer is 500 (environments/fetcher/fetcher.go:138-142). If it succeeds, no package is selected (lines 146-151) and the handler panics on the nil package pointer at line 154. Either way such a request never gets a 200 and the volume is unchanged (`Fetcher.EmptyFetchTypeNeverSucceeds`). The model still takes the parsed request as a value, which lets every branch of the handler be stated.

## Model

| member | source | states |
|---|---|---|
| Text.TrimSuffix | poolmgr/poolmgr.go:64 | Removes the suffix exactly once when it is present: the result plus the suffix is the input. Otherwise the input is unchanged. |
| Text.TrimSlashRemovesAtMostOne | poolmgr/poolmgr.go:64 | Only one slash is removed: an input ending in "//" still ends in "/" after trimming. |
| Text.JoinInjective | environments/fetcher/fetcher.go:124 | Within one directory, different plain file names (not empty, no "/", neither "." nor "..") give different paths. For such names filepath.Join keeps the name as the last path element, so the fact holds of it too. |
| Hex.EncodeToString | environments/fetcher/fetcher.go:94 | The encoding has two characters per byte, all of them in 0-9a-f. |
| Hex.EncodeInjective | environments/fetcher/fetcher.go:94-95 | Different digests have different hex encodings, so comparing the strings compares the digests. |
| Hex.NotAnEncoding | environments/fetcher/fetcher.go:94-95 | A string with a character outside 0-9a-f, such as an upper-case digit, is the encoding of no byte string. |
| Types.ErrorCodesConsecutive | types.go:258-280 | The codes run from 0 (ErrorInternal) to 7 (ErrorChecksumFail) without gaps. The description table has one entry per code. |
| Types.ErrorDescription | types.go:270-280 | A number has a description exactly when it is one of the error codes. |
| Types.ErrorDescriptionsDistinct | types.go:270-280 | Different codes have different descriptions. |
| Types.ErrorDescriptionsOfFetcherErrors | types.go:264-279 | ErrorChecksumFail is described as "Checksum verification failed" and ErrorInvalidArgument as "Invalid argument". |
| Types.PackageTypesDistinct | types.go:243-250 | "literal" and "url" are distinct package types. |
| Text.Join | environments/fetcher/fetcher.go:124 | filepath.Join of the volume directory and a file name (here and at line 186): the directory, one "/", then the name, each part at a fixed position, or the name alone when the directory is empty. |
| Fetcher.TempPath | environments/fetcher/fetcher.go:123-124 | Definition, no contract of its own: the volume directory joined with the file name plus ".tmp". |
| Fetcher.FinalPath | environments/fetcher/fetcher.go:186 | Definition, no contract of its own: the volume directory joined with the requested file name, the target of the rename. |
| Fetcher.TempIsNotFinal | environments/fetcher/fetcher.go:123-124 | The temporary path (the file name plus ".tmp", joined to the volume directory) is never the final path (the same directory joined with the file name), so writing the temporary file leaves the final one alone. |
| Fetcher.VerifyChecksum | environments/fetcher/fetcher.go:77-98 | Success exactly when the type is "sha256", the file exists and can be opened and read, and the hex digest of the content equals the sum. A type other than "sha256" gives ErrorInvalidArgument. A file that is missing or cannot be read (os.Open or io.Copy failing, lines 82-92) gives that read error. A mismatching digest gives ErrorChecksumFail. |
| Fetcher.UnsupportedTypeRefusedBeforeRead | environments/fetcher/fetcher.go:78-80 | An unsupported checksum type is refused with ErrorInvalidArgument whatever the volume holds and whether or not the file can be read, that is, before the file is read. |
| Fetcher.NonLowerHexSumNeverVerifies | environments/fetcher/fetcher.go:94-96 | A sum containing anything but lower-case hex digits never verifies. |
| Fetcher.Download | environments/fetcher/fetcher.go:57-75 | Success exactly when the fetch and the write both succeed. On success the path holds the fetched bytes and nothing else changes. |
| Fetcher.SelectPackage | environments/fetcher/fetcher.go:146-151 | Definition, no contract of its own: "source" selects the function's source package, "deployment" its deployment package, and any other type none, the nil pointer that line 154 dereferences. |
| Fetcher.Stage | environments/fetcher/fetcher.go:126-183 | Filling the temporary file: the url download, or the function lookup and then the literal or the checked package download. A failure is answered 400, 500 or a panic, and no path but the temporary one ever changes. |
| Fetcher.Load | environments/fetcher/fetcher.go:101-196 | The whole handler as a function. The answer is a panic or one of 200, 400, 404 and 500. The lemmas from `NonPostRejected` to `EmptyFetchTypeNeverSucceeds` state it branch by branch. |
| Fetcher.NonPostRejected | environments/fetcher/fetcher.go:102-105 | A method other than POST is answered 404 and the volume is unchanged. |
| Fetcher.UnparsedBodyRejected | environments/fetcher/fetcher.go:107-120 | A body that cannot be read or decoded is answered 500 and the volume is unchanged. |
| Fetcher.UrlDownloadFailureRejected | environments/fetcher/fetcher.go:126-134 | For the url kind, a failed download is answered 400 and the volume is unchanged, so no rename happens. |
| Fetcher.LiteralDeliveredUnchecked | environments/fetcher/fetcher.go:154-162 | A non-empty literal is delivered whatever its checksum says and without any download. The final name holds the literal and the temporary file is gone. |
| Fetcher.PackageDownloadOrChecksumFailureRejected | environments/fetcher/fetcher.go:163-181 | For a package without a literal, a failed download, a downloaded file that cannot be read back, or a refused checksum is answered 400. The final name keeps exactly what it held before. |
| Fetcher.FinalTouchedOnlyOnSuccess | environments/fetcher/fetcher.go:123-195 | Any answer but 200 leaves the final name as it was. No path other than the temporary and the final one ever changes. |
| Fetcher.LoadDeliversRequested | environments/fetcher/fetcher.go:123-195 | The answer is 200 exactly when the requested bytes can be had and neither the write nor the rename fails. The bytes are the url content, the literal, or the package download, provided it can be read back and its checksum accepts it. On 200 the volume is the old one without the temporary file and with the final name holding exactly those bytes. |
| Fetcher.StaleTempFileIgnored | environments/fetcher/fetcher.go:123-186 | A leftover temporary file does not change the answer, and on success does not change the resulting volume. |
| Fetcher.EmptyFetchTypeNeverSucceeds | environments/fetcher/fetcher.go:26-27 | With the fetch type that JSON decoding leaves (empty), a failed function lookup is answered 500 and a successful one ends in a panic; never 200, and the volume is unchanged. |
| Fetcher.Volume.WriteFile | environments/fetcher/fetcher.go:69 | Unless it fails, the path's content is replaced by the data. Nothing else changes. |
| Fetcher.Volume.Rename | environments/fetcher/fetcher.go:186 | Succeeds exactly when the source exists and the rename does not fail. The content moves to the target in one step. |
| Fetcher.Fetcher.constructor | environments/fetcher/fetcher.go:45-55 | MakeFetcher once its API clients exist: the fetcher keeps the shared volume path, and the `Volume` object stands for the pod's shared volume. |
| Fetcher.Fetcher.DownloadUrl | environments/fetcher/fetcher.go:57-75 | Performs `Download` on the volume: same error condition, same new contents. |
| Fetcher.Fetcher.Handler | environments/fetcher/fetcher.go:101-196 | The reply and the new volume are exactly those of `Load` on the old volume. |
| ExecutorClient.BaseUrl | executor/client/client.go:44 | One trailing "/" is removed from the executor URL, and only if it is there. |
| ExecutorClient.TrailingSlashIgnored | executor/client/client.go:44 | An executor URL given with or without one trailing "/" yields the same endpoints, as built at lines 82 and 144. |
| ExecutorClient.Tapped | executor/client/client.go:121-122 | One tap: the URL is in the pending map afterwards, marked true. Every other entry is unchanged and nothing else is added. |
| ExecutorClient.AfterTaps | executor/client/client.go:121-122 | A run of taps: every earlier entry stays and a true entry stays true, and every tapped URL is present and marked true. |
| ExecutorClient.AfterTapsKeys | executor/client/client.go:121-122 | After a run of taps, the pending set holds exactly the earlier entries plus the tapped URLs, all marked true. |
| ExecutorClient.TapsCoalesce | executor/client/client.go:121-122 | Any number of taps for one URL leave exactly one entry. |
| ExecutorClient.LostTapScenario | executor/client/client.go:121-130 | As written, run on a client: taps `earlier`, a tick, taps `later`, then the batch goroutine. The tick's batch is the set of `earlier`, and what is posted is exactly the set of `later`. So an address tapped only before the tick is in the batch and is never posted. |
| ExecutorClient.TapLostExample | executor/client/client.go:121-130 | One `TapService("svc")`, a `Tick`, then `Dispatch`: the batch is {"svc"} and nothing is posted. |
| ExecutorClient.IntendedTapScenario | executor/client/client.go:121-133 | The same run with the corrected tick: every address tapped before the tick is posted, each once. |
| ExecutorClient.Client.constructor | executor/client/client.go:42-51 | The client keeps the trimmed executor URL and starts with an empty tap set and no pending batch. |
| ExecutorClient.Client.GetServiceForFunction | executor/client/client.go:81-115 | Posts to base URL + "/v2/getServiceForFunction". A 200 reply's body is returned verbatim as the address. Any other status is an error carrying that status. Transport and read failures are errors. |
| ExecutorClient.Client.TapServiceCall | executor/client/client.go:143-155 | Posts the raw service URL to base URL + "/v2/tapService". No error exactly on a 200 reply; any other status is an error carrying it. |
| ExecutorClient.Client.TapService | executor/client/client.go:121-122 | A tap (sent on the channel by `TapService`, lines 139-141) marks the URL in the pending set and changes nothing else. |
| ExecutorClient.Client.TapAll | executor/client/client.go:119-122 | A run of taps received one after the other leaves the pending set equal to `AfterTaps` of the old one, and starts no goroutine. |
| ExecutorClient.Client.Tick | executor/client/client.go:123-126 | The batch is the old pending set; the set is replaced by an empty one. A batch goroutine is started exactly when the batch is non-empty. |
| ExecutorClient.Client.Dispatch | executor/client/client.go:127-132 | As written, the batch goroutine posts every URL of the client's current pending set, each once, and not the batch its tick captured. |
| ExecutorClient.Client.TickIntended | executor/client/client.go:123-133 | Corrected tick: the captured batch itself is posted, each URL once. |
| ExecutorClient.Client.PostEach | executor/client/client.go:128-130 | One tap call per URL of the set, each URL exactly once. |
| Poolmgr.CacheKey | poolmgr/poolmgr.go:58-60 | The key is the UID, then "_", then the resource version, each part at a fixed position. |
| Poolmgr.CacheKeyDependsOnlyOnIdentity | poolmgr/poolmgr.go:52-60 | The key depends only on the UID and the resource version. |
| Poolmgr.CacheKeyNewVersion | poolmgr/poolmgr.go:52-60 | The same UID with a different resource version gives a different key. |
| Poolmgr.CacheKeyNewUid | poolmgr/poolmgr.go:58-60 | The same resource version with a different UID gives a different key. |
| Poolmgr.CacheKeyInjective | poolmgr/poolmgr.go:58-60 | For UIDs without "_", the key determines both the UID and the resource version. |
| Poolmgr.CacheKeyAmbiguousWithUnderscore | poolmgr/poolmgr.go:58-60 | Without that condition the key is ambiguous: ("a_b", "c") and ("a", "b_c") share "a_b_c". |
| Poolmgr.ControllerBaseUrl | poolmgr/poolmgr.go:64 | At most one trailing "/" is removed from the controller URL. |
| Translator.OwnerReferenceFromTPR | tpr/translator.go:36-46 | Returns exactly when the controller pointer is non-nil. It then copies APIVersion, Kind, Name, UID and the controller value. |
| Translator.OwnerReferenceToTPR | tpr/translator.go:48-59 | As written, it panics on every input, because it dereferences the controller of the object it has just built. |
| Translator.OwnerReferenceToTPRIntended | tpr/translator.go:48-59 | Corrected: returns exactly when the input's controller is non-nil. |
| Translator.OwnerReferenceRoundTrip | tpr/translator.go:36-59 | With the corrected translation, an owner reference with a controller survives the round trip in both directions. |
| Translator.MapAll | tpr/translator.go:85-89 | The owner-reference loops (here and at lines 118-122). Returns exactly when every element translates. The result then has the same length, with each element the translation of its input, in order. |
| Translator.TranslateAll | tpr/translator.go:85-89 | The append loop (here and at lines 118-122) computes `MapAll`. |
| Translator.MetadataFrom | tpr/translator.go:63-92 | Returns exactly when both deletion pointers are non-nil and every owner reference has a controller. All shared fields are copied, including the pointed-to deletion values. Owner references are translated element-wise with length and order kept. |
| Translator.MetadataTo | tpr/translator.go:96-125 | Returns exactly when both deletion pointers are non-nil and there are no owner references. The as-written owner-reference translation panics on any element. All shared fields are copied. |
| Translator.OwnerReferencesToTPRPanic | tpr/translator.go:118-122 | The owner-reference loop of MetadataToTPR panics on any non-empty slice. |
| Translator.MetadataRoundTrip | tpr/translator.go:63-125 | Metadata translated from the Kubernetes shape and back is returned exactly when it has no owner references, and then it is the original. |
| Translator.MetadataRoundTripFromFission | tpr/translator.go:63-125 | Fission metadata that reaches the Kubernetes shape comes back unchanged. |
| Translator.MetadataFromTPR | tpr/translator.go:63-92 | The step-by-step translation computes `MetadataFrom`. |
| Translator.MetadataToTPR | tpr/translator.go:96-125 | The step-by-step translation computes `MetadataTo`. |
| Translator.ResourceFrom | tpr/translator.go:127-132 | FunctionFromTPR, and likewise the other kinds at lines 149-154, 171-176 and 193-198. The spec is unchanged and only the metadata is translated. It panics exactly when the metadata translation does. |
| Translator.ResourceTo | tpr/translator.go:134-139 | FunctionToTPR, and likewise the other kinds at lines 156-161, 178-183 and 200-205. The spec is unchanged and only the metadata is translated. It panics exactly when the metadata translation does. |
| Translator.ResourceRoundTrip | tpr/translator.go:127-139 | A resource round trip always keeps the spec. It returns the whole resource exactly when there are no owner references. |
| Translator.ResourceFromTPR | tpr/translator.go:127-132 | The method computes `ResourceFrom`. |
| Translator.ResourceToTPR | tpr/translator.go:134-139 | The method computes `ResourceTo`. |
| Translator.ListFromTPR | tpr/translator.go:141-147 | FunctionListFromTPR, and likewise the other kinds at lines 163-169, 185-191 and 207-213. As written, succeeds exactly when every item translates. The result then has 2n elements: n zero resources, followed by the n translations in order. |
| Translator.FunctionListFromTPR | tpr/translator.go:141-147 | As written, the list of functions has 2n elements: n zero functions, then the translations in order. |
| Translator.EnvironmentListFromTPR | tpr/translator.go:163-169 | As written, the list of environments has 2n elements: n zero environments, then the translations in order. |
| Translator.HttpTriggerListFromTPR | tpr/translator.go:185-191 | As written, the list of HTTP triggers has 2n elements: n zero triggers, then the translations in order. |
| Translator.KubernetesWatchTriggerListFromTPR | tpr/translator.go:207-213 | As written, the list of watch triggers has 2n elements: n zero triggers, then the translations in order. |
| Translator.ListFromTPRIntended | tpr/translator.go:141-147 | Corrected: n elements, the translations in order. |
| Versions.ObjName | tpr/versions.go:38-40 | The name is the resource type, then "__", then the resource name, each part at a fixed position. |
| Versions.VersionObject | tpr/versions.go:43-50 | Definition, no contract of its own: a Resourceversion whose metadata holds only the `objName` name, with the resource type, name and version. |
| Versions.CreateRequest | tpr/versions.go:52-56 | Definition, no contract of its own: a POST to the "resourceversions" collection of the client's namespace, naming no object, with the version object as body. |
| Versions.UpdateRequest | tpr/versions.go:70-74 | Definition, no contract of its own: as written, a PUT with the address and body of `CreateRequest`, also naming no object. |
| Versions.GetRequest | tpr/versions.go:81-85 | Definition, no contract of its own: a GET of the object named by `objName` in the client's namespace, without body. |
| Versions.DeleteRequest | tpr/versions.go:93-99 | Definition, no contract of its own: a DELETE of the object named by `objName` in the client's namespace, with empty DeleteOptions as body. |
| Versions.ObjNameInjective | tpr/versions.go:38-40 | For a fixed resource type, the object name determines the resource name. |
| Versions.ObjNameAmbiguousAcrossTypes | tpr/versions.go:38-40 | Across types the "__" separator is ambiguous: ("a__b", "c") and ("a", "b__c") share a name. |
| Versions.CreateAndUpdateSendSameObject | tpr/versions.go:42-76 | createDefault and updateDefault send the same object, with the given version, to the same place. Only the verb (POST or PUT) differs. |
| Versions.GetAndDeleteAddressStoredObject | tpr/versions.go:42-100 | getDefault and deleteDefault address, in the same namespace and collection, the object name createDefault stores. |
| Versions.CreateDefault | tpr/versions.go:42-58 | Returns no error exactly when the POST succeeds. |
| Versions.UpdateDefault | tpr/versions.go:60-76 | Returns no error exactly when the PUT succeeds. |
| Versions.GetDefault | tpr/versions.go:78-90 | On failure, returns "" with the error. On success, returns the version of the object the server returned. |
| Versions.UpdateAddressesCollection | tpr/versions.go:60-76 | As written, updateDefault's PUT names no object, unlike getDefault's GET, which names the stored one. |
| Versions.UpdateRequestIntended | tpr/versions.go:60-76 | Corrected: the PUT names the object `objName` derives, with the same body as before. |
| Versions.UpdateIntendedAddressesStoredObject | tpr/versions.go:42-90 | The corrected PUT addresses the object createDefault stored and getDefault reads, and carries the new version. |
| Versions.UpdateDefaultIntended | tpr/versions.go:60-76 | Corrected updateDefault: no error exactly when the named PUT succeeds. |
| Versions.DeleteDefault | tpr/versions.go:92-100 | Returns no error exactly when the DELETE succeeds. |

## Left out

- The following I/O is parameters, not modelled: HTTP serving and request decoding, the HTTP client, reading request and response bodies, `http.Get`, and real file writes and renames. The parsed request, downloaded bytes, function lookups and failures are inputs.
- JSON encoding and decoding: the fetch request is taken as parsed, and `GetServiceForFunction` receives the metadata already encoded.
- SHA-256 internals: the digest is an uninterpreted function. Hex encoding is written out.
- Goroutines, the request channel, and the 5-second ticker of `Client.service`: a tap, a tick and a later run of the batch goroutine are sequential method calls. The batch goroutine's read of the map races with the service goroutine; the model fixes one interleaving, with the goroutine running after the tick.
- Ordering of Go map iteration: `PostEach` posts the URLs in an unspecified order.
- Error messages and log output: only status codes and error kinds are kept. `fission.MakeErrorFromHTTP` becomes the status it carries.
- `debugPrintServiceObject`: it only logs. It indexes `service[1]`, which panics when the executor URL holds no "." and a Kubernetes client is set. That case is not modelled, because it needs the Kubernetes client.
- `MakeFetcher` when creating the API clients fails (it returns nil), `tpr.MakeFissionClient`, `getKubernetesClient`, and the rest of `StartPoolmgr`: these are client construction against a live cluster.
- The pool manager, the function-service cache, and the cleanup of old resources: the pool manager calls them, but their source is not part of this model.
- The REST calls of the version client: they are a `Rest` function from request to reply.
- `filepath.Join`'s lexical clean-up of ".." and repeated separators: `Text.Join` concatenates with one "/".
- Text.JoinInjective: stated for plain file names only. For names such as "a", "./a" and "a/", filepath.Join's clean-up gives one path, so injectivity does not hold of them.
- A write that fails part way: a failed `WriteFile` leaves the volume unchanged.
- HTTP status codes of downloads: `downloadUrl` never checks `resp.StatusCode` (environments/fetcher/fetcher.go:58-67), so a 404 or 500 reply counts as a successful download, and its error page is written to the temporary file. For the url kind that page is renamed into place and answered 200. The model captures this only because `Io.fetch` may return any body as `Ok`; it does not separate a server's error page from real content.
- Nil versus empty slices: Go's nil `OwnerReferences` and the empty slice made at tpr/translator.go:85 and 118 are both `[]` in the model. So `Translator.MetadataRoundTrip`'s "it is the original" holds of the values (and of their JSON encodings with omitempty), but `reflect.DeepEqual` would tell a nil slice from the empty one it comes back as.
- Timestamp conversions between the two time types: both shapes use the same `Time` value.
- Aliasing of the label and annotation maps and of the finalizer slice, which the translations share: values are copied.
- `tpr/types.go` (type declarations and JSON shims), the Java runtime and examples, and the integration tests.

## Findings

| source | as written | input that shows it | evidently intended | confidence | as-written member | corrected member |
|---|---|---|---|---|---|---|
| executor/client/client.go:127-130 | The batch goroutine ranges over `c.tappedByUrl`, the fresh map just made empty, and not over the captured `urls`. Taps in the captured batch are not posted. | One tap for "svc", then a tick: the batch is {"svc"}, the goroutine walks an empty map, and "svc" is never posted. | Range over `urls`. | not executed | ExecutorClient.LostTapScenario | ExecutorClient.IntendedTapScenario |
| tpr/translator.go:56 | `OwnerReferenceToTPR` dereferences `t_o.Controller` of the object it has just built, which is nil. | Any owner reference, e.g. one whose controller is true: the call panics. | Dereference `o.Controller`. | not executed | Translator.OwnerReferenceToTPR | Translator.OwnerReferenceToTPRIntended |
| tpr/translator.go:142-144 | `make([]T, len(items))` followed by `append` gives 2n elements, the first n of them zero values. The same holds at lines 164-166, 186-188 and 208-210. | A list with one function: the result has two elements, a zero function and then the translated one. | `make([]T, 0, len(items))`. | not executed | Translator.ListFromTPR | Translator.ListFromTPRIntended |
| environments/fetcher/fetcher.go:26-27 | `fetchType` and `function` are unexported fields of `FetchRequest`, so `json.Unmarshal` at line 115 never fills them. Every decoded request has the empty fetch type and an empty function metadata. | Any POST, e.g. {"fetchType": "url", "url": "http://x", "filename": "f"}: the url branch is skipped, and the lookup of the empty function either fails (500) or leaves the package pointer nil, which panics at line 154. | Export the fields (`FetchType`, `Function`) so that decoding fills them. | not executed | Fetcher.EmptyFetchTypeNeverSucceeds | Fetcher.LoadDeliversRequested |
| tpr/versions.go:70-74 | updateDefault sends its PUT without `.Name(...)`, so it goes to the collection URL rather than to the stored object. An API server is likely to refuse a PUT on a collection. | Any update, e.g. type "function", name "f": the PUT has no object name, while getDefault reads "function__f". | Add `.Name(vc.objName(resourceType, resourceName))` as getDefault and deleteDefault do. | not executed; the server's answer is outside the model | Versions.UpdateAddressesCollection | Versions.UpdateIntendedAddressesStoredObject |
