/** The fetcher sidecar (environments/fetcher/fetcher.go): on a POST it places a
    function's code in the container's shared volume. Content is first written
    to `<filename>.tmp`, URL-referenced packages are checked against their
    SHA-256 checksum, and only then is the temporary file renamed to its final
    name.

    The volume is a map from path to bytes. Everything outside the process
    (downloads, the function store, SHA-256, write and rename failures) is
    given as an `Io` value. `Load` states the handler's whole effect as a
    function; the `Fetcher.Handler` method performs it step by step. */
module Fetcher {
  import opened Wrappers
  import opened Hex
  import opened Types
  import Kube
  import Text

  type Files = map<string, seq<byte>>

  const FetchSource: string := "source"
  const FetchDeployment: string := "deployment"
  const FetchUrl: string := "url"

  /** The fetch request after JSON decoding. */
  datatype FetchRequest = FetchRequest(
    fetchType: string,
    functionMeta: Kube.ObjectMeta,
    url: string,
    filename: string)

  /** What reading and decoding the HTTP request body gave. */
  datatype RequestBody = BodyReadFailed | Malformed | Parsed(req: FetchRequest)

  datatype HttpRequest = HttpRequest(httpMethod: string, body: RequestBody)

  /** The handler's reply: a status code, or a panic (net/http recovers it and
      drops the connection without a status). */
  datatype Response = Status(code: int) | Panicked

  /** The world outside the fetcher. */
  datatype Io = Io(
    // http.Get and read of a URL. downloadUrl never looks at the status code,
    // so a 404 or 500 reply is Ok with its error page as the content.
    fetch: string -> Result<seq<byte>, string>,
    getFunction: (string, string) -> Result<Function, string>, // function store, by namespace and name
    sha256: seq<byte> -> seq<byte>,                           // the SHA-256 digest
    writeFails: bool,                                         // ioutil.WriteFile fails
    readFails: bool,                                          // os.Open or io.Copy in verifyChecksum fails
    renameFails: bool)                                        // os.Rename fails

  function TempPath(dir: string, filename: string): string {
    Text.Join(dir, filename + ".tmp")
  }

  function FinalPath(dir: string, filename: string): string {
    Text.Join(dir, filename)
  }

  /** The temporary file is never the final file, so writing the one leaves
      the other alone. */
  lemma TempIsNotFinal(dir: string, filename: string)
    ensures TempPath(dir, filename) != FinalPath(dir, filename)
  {
    assert |filename + ".tmp"| == |filename| + 4;
  }

  // ---------------------------------------------------------------------------
  // File system primitives on the map

  function Renamed(files: Files, from: string, to: string): Files
    requires from in files
  {
    if from == to then files else (files - {from})[to := files[from]]
  }

  // ---------------------------------------------------------------------------
  // Checksum verification

  /** Why verifyChecksum refused: a Fission error, or the file could not be read. */
  datatype ChecksumError = Fission(err: Error) | ReadFailed

  /** The integrity rule: the algorithm is sha256 and the hex digest of the
      content is exactly the declared sum. */
  predicate ChecksumAccepts(checksum: Checksum, content: seq<byte>, sha256: seq<byte> -> seq<byte>) {
    checksum.typ == ChecksumTypeSha256 && Hex.EncodeToString(sha256(content)) == checksum.sum
  }

  /** verifyChecksum on the file at `path`; None is Go's nil error.
      `readFails` says that opening or reading the file fails even though it
      exists (permissions, no file descriptors left, an I/O error). */
  function VerifyChecksum(files: Files, path: string, checksum: Checksum, sha256: seq<byte> -> seq<byte>, readFails: bool): (r: Option<ChecksumError>)
    ensures r.None? <==> !readFails && path in files && ChecksumAccepts(checksum, files[path], sha256)
    ensures checksum.typ != ChecksumTypeSha256 ==>
      r == Some(Fission(Error(ErrorInvalidArgument, "Unsupported checksum type")))
    ensures checksum.typ == ChecksumTypeSha256 && (readFails || path !in files) ==> r == Some(ReadFailed)
    ensures checksum.typ == ChecksumTypeSha256 && !readFails && path in files && !ChecksumAccepts(checksum, files[path], sha256) ==>
      r == Some(Fission(Error(ErrorChecksumFail, "Checksum validation failed")))
  {
    if checksum.typ != ChecksumTypeSha256 then
      Some(Fission(Error(ErrorInvalidArgument, "Unsupported checksum type")))
    else if readFails || path !in files then
      Some(ReadFailed)
    else if Hex.EncodeToString(sha256(files[path])) != checksum.sum then
      Some(Fission(Error(ErrorChecksumFail, "Checksum validation failed")))
    else
      None
  }

  /** The algorithm is checked before the file is read: an unsupported type
      is refused the same way whatever the volume holds and whether or not
      the file could be read. */
  lemma UnsupportedTypeRefusedBeforeRead(f1: Files, f2: Files, path: string, checksum: Checksum, sha256: seq<byte> -> seq<byte>, rf1: bool, rf2: bool)
    requires checksum.typ != ChecksumTypeSha256
    ensures VerifyChecksum(f1, path, checksum, sha256, rf1) == VerifyChecksum(f2, path, checksum, sha256, rf2)
    ensures VerifyChecksum(f1, path, checksum, sha256, rf1).value.Fission?
    ensures VerifyChecksum(f1, path, checksum, sha256, rf1).value.err.code == ErrorInvalidArgument
  {
  }

  /** The comparison is case-sensitive against lower-case hex, so a sum
      written with an upper-case digit (or any other character) never verifies. */
  lemma NonLowerHexSumNeverVerifies(files: Files, path: string, checksum: Checksum, sha256: seq<byte> -> seq<byte>, readFails: bool, i: int)
    requires 0 <= i < |checksum.sum| && !Hex.IsLowerHexDigit(checksum.sum[i])
    ensures VerifyChecksum(files, path, checksum, sha256, readFails).Some?
  {
    if path in files {
      Hex.NotAnEncoding(checksum.sum, i, sha256(files[path]));
    }
  }

  // ---------------------------------------------------------------------------
  // The load protocol as a function

  /** downloadUrl: fetch the URL and write what came back to `path`. */
  function Download(files: Files, url: string, path: string, io: Io): (r: Result<Files, string>)
    ensures r.Ok? <==> io.fetch(url).Ok? && !io.writeFails
    ensures r.Ok? ==> r.value == files[path := io.fetch(url).value]
  {
    match io.fetch(url)
    case Err(e) => Err(e)
    case Ok(bytes) => if io.writeFails then Err("write failed") else Ok(files[path := bytes])
  }

  /** The package a fetch type selects from a function: the source package,
      the deployment package, or none (Go leaves the pointer nil). */
  function SelectPackage(fetchType: string, fn: Function): Option<Package> {
    if fetchType == FetchSource then Some(fn.spec.source)
    else if fetchType == FetchDeployment then Some(fn.spec.deployment)
    else None
  }

  /** Everything the handler does before the rename: the failure response if
      it stops early (None if it goes on to rename), and the volume so far. */
  function Stage(req: FetchRequest, tmp: string, io: Io, files: Files): (r: (Option<Response>, Files))
    ensures r.0.Some? ==> r.0.value == Panicked || r.0.value == Status(400) || r.0.value == Status(500)
    ensures forall p :: p != tmp ==> (p in r.1 <==> p in files) && (p in files ==> r.1[p] == files[p])
  {
    if req.fetchType == FetchUrl then
      match Download(files, req.url, tmp, io)
      case Err(_) => (Some(Status(400)), files)
      case Ok(f) => (None, f)
    else
      match io.getFunction(req.functionMeta.namespace, req.functionMeta.name)
      case Err(_) => (Some(Status(500)), files)
      case Ok(fn) =>
        match SelectPackage(req.fetchType, fn)
        case None => (Some(Panicked), files)
        case Some(pkg) =>
          if |pkg.literal| > 0 then
            if io.writeFails then (Some(Status(500)), files) else (None, files[tmp := pkg.literal])
          else
            match Download(files, pkg.url, tmp, io)
            case Err(_) => (Some(Status(400)), files)
            case Ok(f) =>
              if VerifyChecksum(f, tmp, pkg.checksum, io.sha256, io.readFails).Some? then (Some(Status(400)), f)
              else (None, f)
  }

  /** The response of the handler and the volume it leaves behind. */
  function Load(dir: string, r: HttpRequest, io: Io, files: Files): (out: (Response, Files))
    ensures out.0 == Panicked || out.0 == Status(200) || out.0 == Status(400)
         || out.0 == Status(404) || out.0 == Status(500)
  {
    if r.httpMethod != "POST" then (Status(404), files)
    else
      match r.body
      case BodyReadFailed => (Status(500), files)
      case Malformed => (Status(500), files)
      case Parsed(req) =>
        var tmp := TempPath(dir, req.filename);
        var (failure, staged) := Stage(req, tmp, io, files);
        if failure.Some? then (failure.value, staged)
        else if io.renameFails || tmp !in staged then (Status(500), staged)
        else (Status(200), Renamed(staged, tmp, FinalPath(dir, req.filename)))
  }

  /** The content a request names, where it can be had and passes the
      integrity rule: a url request's download; a package's literal bytes when
      there are any, unchecked; otherwise the package download, if the
      downloaded file can be read back and its checksum accepts it. This does
      not depend on the volume. */
  function Requested(req: FetchRequest, io: Io): Option<seq<byte>> {
    if req.fetchType == FetchUrl then
      if io.fetch(req.url).Ok? then Some(io.fetch(req.url).value) else None
    else if io.getFunction(req.functionMeta.namespace, req.functionMeta.name).Err? then None
    else
      match SelectPackage(req.fetchType, io.getFunction(req.functionMeta.namespace, req.functionMeta.name).value)
      case None => None
      case Some(pkg) =>
        if |pkg.literal| > 0 then Some(pkg.literal)
        else if io.fetch(pkg.url).Ok? && !io.readFails && ChecksumAccepts(pkg.checksum, io.fetch(pkg.url).value, io.sha256)
        then Some(io.fetch(pkg.url).value)
        else None
  }

  // ---------------------------------------------------------------------------
  // Properties of the load protocol

  /** Any method but POST is answered 404 and the volume is not touched. */
  lemma NonPostRejected(dir: string, r: HttpRequest, io: Io, files: Files)
    requires r.httpMethod != "POST"
    ensures Load(dir, r, io, files) == (Status(404), files)
  {
  }

  /** A body that cannot be read or decoded is answered 500 and the volume is
      not touched. */
  lemma UnparsedBodyRejected(dir: string, r: HttpRequest, io: Io, files: Files)
    requires r.httpMethod == "POST" && !r.body.Parsed?
    ensures Load(dir, r, io, files) == (Status(500), files)
  {
  }

  /** For a url request whose download fails the answer is 400 and nothing
      changes, so no rename happens. */
  lemma UrlDownloadFailureRejected(dir: string, r: HttpRequest, io: Io, files: Files)
    requires r.httpMethod == "POST" && r.body.Parsed? && r.body.req.fetchType == FetchUrl
    requires io.fetch(r.body.req.url).Err?
    ensures Load(dir, r, io, files) == (Status(400), files)
  {
  }

  /** A package with literal bytes is written as it is, whatever its
      checksum says and without downloading anything. */
  lemma LiteralDeliveredUnchecked(dir: string, r: HttpRequest, io: Io, files: Files, pkg: Package)
    requires r.httpMethod == "POST" && r.body.Parsed?
    requires var req := r.body.req;
      && io.getFunction(req.functionMeta.namespace, req.functionMeta.name).Ok?
      && SelectPackage(req.fetchType, io.getFunction(req.functionMeta.namespace, req.functionMeta.name).value) == Some(pkg)
    requires |pkg.literal| > 0 && !io.writeFails && !io.renameFails
    ensures var req := r.body.req;
      Load(dir, r, io, files) ==
        (Status(200), (files - {TempPath(dir, req.filename)})[FinalPath(dir, req.filename) := pkg.literal])
  {
    var req := r.body.req;
    var tmp := TempPath(dir, req.filename);
    assert req.fetchType != FetchUrl;
    TempIsNotFinal(dir, req.filename);
    assert files[tmp := pkg.literal] - {tmp} == files - {tmp};
  }

  /** For a package fetched by URL, a download that fails, a downloaded file
      that cannot be read back, or content that the checksum refuses is
      answered 400 and never reaches the final name. */
  lemma PackageDownloadOrChecksumFailureRejected(dir: string, r: HttpRequest, io: Io, files: Files, pkg: Package)
    requires r.httpMethod == "POST" && r.body.Parsed?
    requires var req := r.body.req;
      && io.getFunction(req.functionMeta.namespace, req.functionMeta.name).Ok?
      && SelectPackage(req.fetchType, io.getFunction(req.functionMeta.namespace, req.functionMeta.name).value) == Some(pkg)
    requires |pkg.literal| == 0
    requires io.fetch(pkg.url).Err? || io.writeFails || io.readFails
          || !ChecksumAccepts(pkg.checksum, io.fetch(pkg.url).value, io.sha256)
    ensures var (resp, files') := Load(dir, r, io, files);
      var final := FinalPath(dir, r.body.req.filename);
      && resp == Status(400)
      && (final in files' <==> final in files)
      && (final in files ==> files'[final] == files[final])
  {
    var req := r.body.req;
    assert req.fetchType != FetchUrl;
    TempIsNotFinal(dir, req.filename);
  }

  /** Whatever the request and whatever fails, any answer other than 200
      leaves the final name exactly as it was, and no path but the temporary
      and the final one is ever changed. */
  lemma FinalTouchedOnlyOnSuccess(dir: string, r: HttpRequest, io: Io, files: Files)
    ensures var (resp, files') := Load(dir, r, io, files);
      r.body.Parsed? ==>
      var final := FinalPath(dir, r.body.req.filename);
      var tmp := TempPath(dir, r.body.req.filename);
      && (resp != Status(200) ==> (final in files' <==> final in files) && (final in files ==> files'[final] == files[final]))
      && (forall p :: p != tmp && p != final ==> (p in files' <==> p in files) && (p in files ==> files'[p] == files[p]))
  {
    if r.body.Parsed? {
      TempIsNotFinal(dir, r.body.req.filename);
    }
  }

  /** On success the final name holds exactly the bytes the request names
      (and that were in the temporary file), the temporary file is gone, and
      every other path is unchanged; success happens exactly when those bytes
      can be had and neither writing nor renaming fails. */
  lemma {:induction false} LoadDeliversRequested(dir: string, r: HttpRequest, io: Io, files: Files)
    requires r.httpMethod == "POST" && r.body.Parsed?
    ensures var req := r.body.req;
      var (resp, files') := Load(dir, r, io, files);
      && (resp == Status(200) <==> Requested(req, io).Some? && !io.writeFails && !io.renameFails)
      && (resp == Status(200) ==>
            files' == (files - {TempPath(dir, req.filename)})
                        [FinalPath(dir, req.filename) := Requested(req, io).value])
  {
    var req := r.body.req;
    var tmp, final := TempPath(dir, req.filename), FinalPath(dir, req.filename);
    TempIsNotFinal(dir, req.filename);
    var (failure, staged) := Stage(req, tmp, io, files);
    if failure.None? {
      StagedHoldsRequested(req, tmp, io, files);
      assert staged == files[tmp := Requested(req, io).value];
      assert (staged - {tmp}) == files - {tmp};
    } else {
      StageFailureExplained(req, tmp, io, files);
    }
  }

  lemma StagedHoldsRequested(req: FetchRequest, tmp: string, io: Io, files: Files)
    requires Stage(req, tmp, io, files).0.None?
    ensures Requested(req, io).Some? && !io.writeFails
    ensures Stage(req, tmp, io, files).1 == files[tmp := Requested(req, io).value]
  {
    if req.fetchType != FetchUrl {
      var fn := io.getFunction(req.functionMeta.namespace, req.functionMeta.name).value;
      var pkg := SelectPackage(req.fetchType, fn).value;
      if |pkg.literal| == 0 {
        var f := Download(files, pkg.url, tmp, io).value;
        assert VerifyChecksum(f, tmp, pkg.checksum, io.sha256, io.readFails).None?;
      }
    }
  }

  lemma StageFailureExplained(req: FetchRequest, tmp: string, io: Io, files: Files)
    requires Stage(req, tmp, io, files).0.Some?
    ensures Requested(req, io).None? || io.writeFails
    ensures Stage(req, tmp, io, files).0 != Some(Status(200))
  {
    if req.fetchType != FetchUrl && io.getFunction(req.functionMeta.namespace, req.functionMeta.name).Ok? {
      var fn := io.getFunction(req.functionMeta.namespace, req.functionMeta.name).value;
      if SelectPackage(req.fetchType, fn).Some? {
        var pkg := SelectPackage(req.fetchType, fn).value;
        if |pkg.literal| == 0 && Download(files, pkg.url, tmp, io).Ok? {
          var f := Download(files, pkg.url, tmp, io).value;
          assert VerifyChecksum(f, tmp, pkg.checksum, io.sha256, io.readFails).Some?;
        }
      }
    }
  }

  /** A stray temporary file from an earlier attempt changes nothing: the
      answer is the same and, on success, so is the whole volume. */
  lemma StaleTempFileIgnored(dir: string, r: HttpRequest, io: Io, files: Files, junk: seq<byte>)
    requires r.httpMethod == "POST" && r.body.Parsed?
    ensures var tmp := TempPath(dir, r.body.req.filename);
      var (resp1, files1) := Load(dir, r, io, files);
      var (resp2, files2) := Load(dir, r, io, files[tmp := junk]);
      && resp1 == resp2
      && (resp1 == Status(200) ==> files1 == files2)
  {
    var req := r.body.req;
    var tmp := TempPath(dir, req.filename);
    LoadDeliversRequested(dir, r, io, files);
    LoadDeliversRequested(dir, r, io, files[tmp := junk]);
    assert files[tmp := junk] - {tmp} == files - {tmp};
  }

  /** `fetchType` and `function` are unexported fields of FetchRequest, so
      JSON decoding leaves them empty. With an empty fetch type the handler
      looks the function up: a failed lookup is answered 500, and otherwise no
      package is selected and the handler panics on the nil pointer. It never
      answers 200 and never touches the volume. */
  lemma EmptyFetchTypeNeverSucceeds(dir: string, r: HttpRequest, io: Io, files: Files)
    requires r.httpMethod == "POST" && r.body.Parsed? && r.body.req.fetchType == ""
    ensures var (resp, files') := Load(dir, r, io, files);
      var fn := io.getFunction(r.body.req.functionMeta.namespace, r.body.req.functionMeta.name);
      && (fn.Err? ==> resp == Status(500))
      && (fn.Ok? ==> resp == Panicked)
      && files' == files
  {
  }

  // ---------------------------------------------------------------------------
  // The handler, step by step

  /** The container's shared volume. */
  class Volume {
    var files: Files

    constructor (files: Files)
      ensures this.files == files
    {
      this.files := files;
    }

    /** ioutil.WriteFile: replaces the whole content of `path`, unless it fails. */
    method WriteFile(path: string, data: seq<byte>, fails: bool) returns (ok: bool)
      modifies this
      ensures ok == !fails
      ensures files == if ok then old(files)[path := data] else old(files)
    {
      ok := !fails;
      if ok {
        files := files[path := data];
      }
    }

    /** os.Rename: moves the content of `from` to `to` in one step; it fails
      if `from` does not exist. */
    method Rename(from: string, to: string, fails: bool) returns (ok: bool)
      modifies this
      ensures ok == (!fails && from in old(files))
      ensures files == if ok then Renamed(old(files), from, to) else old(files)
    {
      ok := !fails && from in files;
      if ok {
        files := Renamed(files, from, to);
      }
    }
  }

  class Fetcher {
    const sharedVolumePath: string
    const volume: Volume

    /** MakeFetcher, once its API clients exist. */
    constructor (sharedVolumePath: string, volume: Volume)
      ensures this.sharedVolumePath == sharedVolumePath && this.volume == volume
    {
      this.sharedVolumePath := sharedVolumePath;
      this.volume := volume;
    }

    /** downloadUrl */
    method DownloadUrl(url: string, localPath: string, io: Io) returns (err: Option<string>)
      modifies volume
      ensures err.None? <==> Download(old(volume.files), url, localPath, io).Ok?
      ensures volume.files == if err.None? then Download(old(volume.files), url, localPath, io).value else old(volume.files)
    {
      var body := io.fetch(url);
      if body.Err? {
        return Some(body.error);
      }
      var ok := volume.WriteFile(localPath, body.value, io.writeFails);
      if !ok {
        return Some("write failed");
      }
      return None;
    }

    /** The HTTP handler: its reply and its effect on the volume are those of `Load`. */
    method Handler(r: HttpRequest, io: Io) returns (resp: Response)
      modifies volume
      ensures (resp, volume.files) == Load(sharedVolumePath, r, io, old(volume.files))
    {
      if r.httpMethod != "POST" {
        return Status(404);
      }
      if !r.body.Parsed? {
        return Status(500);
      }
      var req := r.body.req;
      var tmpPath := TempPath(sharedVolumePath, req.filename);

      if req.fetchType == FetchUrl {
        var err := DownloadUrl(req.url, tmpPath, io);
        if err.Some? {
          return Status(400);
        }
      } else {
        var fn := io.getFunction(req.functionMeta.namespace, req.functionMeta.name);
        if fn.Err? {
          return Status(500);
        }
        var pkg := SelectPackage(req.fetchType, fn.value);
        if pkg.None? {
          return Panicked;
        }
        if |pkg.value.literal| > 0 {
          var ok := volume.WriteFile(tmpPath, pkg.value.literal, io.writeFails);
          if !ok {
            return Status(500);
          }
        } else {
          var err := DownloadUrl(pkg.value.url, tmpPath, io);
          if err.Some? {
            return Status(400);
          }
          var verr := VerifyChecksum(volume.files, tmpPath, pkg.value.checksum, io.sha256, io.readFails);
          if verr.Some? {
            return Status(400);
          }
        }
      }

      var ok := volume.Rename(tmpPath, FinalPath(sharedVolumePath, req.filename), io.renameFails);
      if !ok {
        return Status(500);
      }
      return Status(200);
    }
  }
}
