/** The Fission API's own records and constants (types.go): resource metadata,
    packages and checksums, the four resource kinds' specs, and error codes. */
module Types {
  import opened Wrappers
  import Kube
  import opened Hex

  // ---------------------------------------------------------------------------
  // Metadata, in the Fission API's shape (the same fields as api.ObjectMeta)

  datatype OwnerReference = OwnerReference(
    apiVersion: string,
    kind: string,
    name: string,
    uid: string,
    controller: Option<bool>)

  datatype Metadata = Metadata(
    name: string,
    generateName: string,
    namespace: string,
    selfLink: string,
    uid: string,
    resourceVersion: string,
    generation: int,
    creationTimestamp: Kube.Time,
    deletionTimestamp: Option<Kube.Time>,
    deletionGracePeriodSeconds: Option<int>,
    labels: map<string, string>,
    annotations: map<string, string>,
    ownerReferences: seq<OwnerReference>,
    finalizers: seq<string>,
    clusterName: string)

  const ZeroMetadata: Metadata :=
    Metadata("", "", "", "", "", "", 0, Kube.ZeroTime, None, None, map[], map[], [], [], "")

  // ---------------------------------------------------------------------------
  // Functions and packages

  /** The only checksum algorithm the fetcher accepts. */
  const ChecksumTypeSha256: string := "sha256"

  /** Checksum of package contents stored outside the Package record: `typ` is
      the algorithm name and `sum` the digest, hex-encoded. */
  datatype Checksum = Checksum(typ: string, sum: string)

  type PackageType = string

  const PackageTypeLiteral: PackageType := "literal"
  const PackageTypeUrl: PackageType := "url"

  /** A package is given either by its literal bytes or by a URL; the checksum
      protects only URL-referenced content and is ignored for literals. */
  datatype Package = Package(
    typ: PackageType,
    literal: seq<byte>,
    url: string,
    checksum: Checksum,
    entryPoint: string)

  const ZeroPackage: Package := Package("", [], "", Checksum("", ""), "")

  datatype FunctionSpec = FunctionSpec(
    environmentName: string,
    source: Package,
    deployment: Package)

  datatype FunctionReference = FunctionReference(typ: string, name: string)

  // ---------------------------------------------------------------------------
  // Environments and triggers

  datatype Runtime = Runtime(
    image: string,
    loadEndpointPort: int,
    loadEndpointPath: string,
    functionEndpointPort: int)

  datatype Builder = Builder(image: string, command: string)

  datatype EnvironmentSpec = EnvironmentSpec(
    version: int,
    runtime: Runtime,
    builder: Builder,
    documentationUrl: string)

  datatype HTTPTriggerSpec = HTTPTriggerSpec(
    host: string,
    relativeUrl: string,
    httpMethod: string,
    functionReference: FunctionReference)

  datatype KubernetesWatchTriggerSpec = KubernetesWatchTriggerSpec(
    namespace: string,
    typ: string,
    labelSelector: map<string, string>,
    functionReference: FunctionReference)

  /** Every Fission resource is its metadata plus its kind's spec. */
  datatype Resource<S> = Resource(metadata: Metadata, spec: S)

  type Function = Resource<FunctionSpec>
  type Environment = Resource<EnvironmentSpec>
  type HTTPTrigger = Resource<HTTPTriggerSpec>
  type KubernetesWatchTrigger = Resource<KubernetesWatchTriggerSpec>

  /** Go's zero values of the four spec records. */
  const ZeroFunctionSpec: FunctionSpec := FunctionSpec("", ZeroPackage, ZeroPackage)
  const ZeroEnvironmentSpec: EnvironmentSpec :=
    EnvironmentSpec(0, Runtime("", 0, "", 0), Builder("", ""), "")
  const ZeroHTTPTriggerSpec: HTTPTriggerSpec :=
    HTTPTriggerSpec("", "", "", FunctionReference("", ""))
  const ZeroKubernetesWatchTriggerSpec: KubernetesWatchTriggerSpec :=
    KubernetesWatchTriggerSpec("", "", map[], FunctionReference("", ""))

  // ---------------------------------------------------------------------------
  // Errors returned by the Fission API

  datatype Error = Error(code: int, message: string)

  const ErrorInternal: int := 0
  const ErrorNotAuthorized: int := 1
  const ErrorNotFound: int := 2
  const ErrorNameExists: int := 3
  const ErrorInvalidArgument: int := 4
  const ErrorNoSpace: int := 5
  const ErrorNotImplmented: int := 6
  const ErrorChecksumFail: int := 7

  /** The error codes in declaration order. */
  const ErrorCodes: seq<int> := [
    ErrorInternal, ErrorNotAuthorized, ErrorNotFound, ErrorNameExists,
    ErrorInvalidArgument, ErrorNoSpace, ErrorNotImplmented, ErrorChecksumFail]

  /** One description per code, in the order of the codes. */
  const ErrorDescriptions: seq<string> := [
    "Internal error",
    "Not authorized",
    "Resource not found",
    "Resource exists",
    "Invalid argument",
    "No space",
    "Not implemented",
    "Checksum verification failed"]

  /** The codes are the consecutive integers from ErrorInternal to
      ErrorChecksumFail, and the description table has one entry per code. */
  lemma ErrorCodesConsecutive()
    ensures ErrorInternal == 0 && ErrorChecksumFail == 7
    ensures forall i :: 0 <= i < |ErrorCodes| ==> ErrorCodes[i] == i
    ensures |ErrorDescriptions| == |ErrorCodes|
  {
  }

  /** The description of a code, looked up by position in the parallel table;
      a number that is not one of the codes has none. */
  function ErrorDescription(code: int): (d: Option<string>)
    ensures d.Some? <==> code in ErrorCodes
    ensures d.Some? ==> d.value in ErrorDescriptions
  {
    if 0 <= code < |ErrorDescriptions| then Some(ErrorDescriptions[code]) else None
  }

  /** Different codes have different descriptions, so the table can be read
      in both directions. */
  lemma ErrorDescriptionsDistinct(c1: int, c2: int)
    requires c1 in ErrorCodes && c2 in ErrorCodes && c1 != c2
    ensures ErrorDescription(c1) != ErrorDescription(c2)
  {
  }

  lemma ErrorDescriptionsOfFetcherErrors()
    ensures ErrorDescription(ErrorChecksumFail) == Some("Checksum verification failed")
    ensures ErrorDescription(ErrorInvalidArgument) == Some("Invalid argument")
  {
  }

  lemma PackageTypesDistinct()
    ensures PackageTypeLiteral != PackageTypeUrl
  {
  }
}
