/** The resource-version records kept next to each Fission resource
    (tpr/versions.go). Each operation builds one request to the API server's
    "resourceversions" collection; sending it is left to a `Rest` function. */
module Versions {
  import opened Wrappers
  import Kube

  /** A Resourceversion object: which resource it describes and its version. */
  datatype ResourceVersion = ResourceVersion(
    metadata: Kube.ObjectMeta,
    resourceType: string,
    resourceName: string,
    version: string)

  datatype VersionClient = VersionClient(namespace: string)

  datatype Verb = Post | Put | Get | Delete

  datatype Body = NoBody | VersionBody(obj: ResourceVersion) | DeleteOptions

  /** A REST call: verb, namespace, resource collection, object name (absent
      for a POST or PUT, which name the object in the body) and body. */
  datatype RestRequest = RestRequest(
    verb: Verb,
    namespace: string,
    resource: string,
    name: Option<string>,
    body: Body)

  /** The API server: what a request returns, an object or an error message. */
  type Rest = RestRequest -> Result<ResourceVersion, string>

  const ResourceVersions: string := "resourceversions"

  /** The stored object's name: resource type and resource name joined by "__". */
  function ObjName(resourceType: string, name: string): (n: string)
    ensures |n| == |resourceType| + 2 + |name|
    ensures n[..|resourceType|] == resourceType && n[|resourceType|..|resourceType| + 2] == "__"
    ensures n[|resourceType| + 2..] == name
  {
    resourceType + "__" + name
  }

  /** Within one resource type, different resources get different objects. */
  lemma ObjNameInjective(resourceType: string, a: string, b: string)
    requires ObjName(resourceType, a) == ObjName(resourceType, b)
    ensures a == b
  {
    var n := |resourceType| + 2;
    assert ObjName(resourceType, a)[n..] == a;
    assert ObjName(resourceType, b)[n..] == b;
  }

  /** Across resource types the name is ambiguous when a type or name holds
      "__": ("a__b", "c") and ("a", "b__c") share an object. */
  lemma ObjNameAmbiguousAcrossTypes()
    ensures ObjName("a__b", "c") == ObjName("a", "b__c")
  {
  }

  /** The object createDefault and updateDefault send: metadata holding only the
      derived name, and the resource's type, name and version. */
  function VersionObject(resourceType: string, resourceName: string, version: string): ResourceVersion {
    ResourceVersion(
      Kube.ZeroObjectMeta.(name := ObjName(resourceType, resourceName)),
      resourceType, resourceName, version)
  }

  function CreateRequest(vc: VersionClient, resourceType: string, resourceName: string, version: string): RestRequest {
    RestRequest(Post, vc.namespace, ResourceVersions, None,
      VersionBody(VersionObject(resourceType, resourceName, version)))
  }

  function UpdateRequest(vc: VersionClient, resourceType: string, resourceName: string, version: string): RestRequest {
    RestRequest(Put, vc.namespace, ResourceVersions, None,
      VersionBody(VersionObject(resourceType, resourceName, version)))
  }

  function GetRequest(vc: VersionClient, resourceType: string, resourceName: string): RestRequest {
    RestRequest(Get, vc.namespace, ResourceVersions, Some(ObjName(resourceType, resourceName)), NoBody)
  }

  function DeleteRequest(vc: VersionClient, resourceType: string, resourceName: string): RestRequest {
    RestRequest(Delete, vc.namespace, ResourceVersions, Some(ObjName(resourceType, resourceName)), DeleteOptions)
  }

  /** createDefault and updateDefault send the same object to the same
      collection; only the verb differs. */
  lemma CreateAndUpdateSendSameObject(vc: VersionClient, t: string, n: string, v: string)
    ensures CreateRequest(vc, t, n, v).verb == Post && UpdateRequest(vc, t, n, v).verb == Put
    ensures CreateRequest(vc, t, n, v).(verb := Put) == UpdateRequest(vc, t, n, v)
    ensures CreateRequest(vc, t, n, v).body.obj.version == v
  {
  }

  /** getDefault and deleteDefault address, in the same namespace and
      collection, the very object name that createDefault stores, whatever
      version was stored. */
  lemma GetAndDeleteAddressStoredObject(vc: VersionClient, t: string, n: string, v: string)
    ensures var stored := CreateRequest(vc, t, n, v);
      && GetRequest(vc, t, n).name == Some(stored.body.obj.metadata.name)
      && DeleteRequest(vc, t, n).name == Some(stored.body.obj.metadata.name)
      && GetRequest(vc, t, n).namespace == stored.namespace == DeleteRequest(vc, t, n).namespace
      && GetRequest(vc, t, n).resource == stored.resource == DeleteRequest(vc, t, n).resource
  {
  }

  /** createDefault: the error of the POST, if any. */
  function CreateDefault(vc: VersionClient, resourceType: string, resourceName: string, version: string, rest: Rest): (err: Option<string>)
    ensures err.None? <==> rest(CreateRequest(vc, resourceType, resourceName, version)).Ok?
  {
    match rest(CreateRequest(vc, resourceType, resourceName, version))
    case Ok(_) => None
    case Err(e) => Some(e)
  }

  /** updateDefault: the error of the PUT, if any. */
  function UpdateDefault(vc: VersionClient, resourceType: string, resourceName: string, version: string, rest: Rest): (err: Option<string>)
    ensures err.None? <==> rest(UpdateRequest(vc, resourceType, resourceName, version)).Ok?
  {
    match rest(UpdateRequest(vc, resourceType, resourceName, version))
    case Ok(_) => None
    case Err(e) => Some(e)
  }

  /** getDefault: on failure the empty string together with the error, on
      success the version held by the object the server returned. */
  function GetDefault(vc: VersionClient, resourceType: string, resourceName: string, rest: Rest): (r: (string, Option<string>))
    ensures var reply := rest(GetRequest(vc, resourceType, resourceName));
      && (reply.Err? ==> r == ("", Some(reply.error)))
      && (reply.Ok? ==> r == (reply.value.version, None))
  {
    match rest(GetRequest(vc, resourceType, resourceName))
    case Err(e) => ("", Some(e))
    case Ok(obj) => (obj.version, None)
  }

  /** deleteDefault: the error of the DELETE, if any. */
  function DeleteDefault(vc: VersionClient, resourceType: string, resourceName: string, rest: Rest): (err: Option<string>)
    ensures err.None? <==> rest(DeleteRequest(vc, resourceType, resourceName)).Ok?
  {
    match rest(DeleteRequest(vc, resourceType, resourceName))
    case Ok(_) => None
    case Err(e) => Some(e)
  }

  /** As written, updateDefault's PUT names no object: it goes to the
      collection itself, while getDefault and deleteDefault name the stored
      object. */
  lemma UpdateAddressesCollection(vc: VersionClient, t: string, n: string, v: string)
    ensures UpdateRequest(vc, t, n, v).verb == Put && UpdateRequest(vc, t, n, v).name == None
    ensures GetRequest(vc, t, n).name == Some(ObjName(t, n))
  {
  }

  /** updateDefault's request as evidently intended: the PUT names the
      object that createDefault stored. */
  function UpdateRequestIntended(vc: VersionClient, resourceType: string, resourceName: string, version: string): (req: RestRequest)
    ensures req.verb == Put && req.name == Some(ObjName(resourceType, resourceName))
    ensures req.body == VersionBody(VersionObject(resourceType, resourceName, version))
  {
    RestRequest(Put, vc.namespace, ResourceVersions, Some(ObjName(resourceType, resourceName)),
      VersionBody(VersionObject(resourceType, resourceName, version)))
  }

  /** The corrected PUT addresses, in the same namespace and collection, the
      object createDefault stored and getDefault reads, and carries the new
      version in the same object createDefault would send. */
  lemma UpdateIntendedAddressesStoredObject(vc: VersionClient, t: string, n: string, v: string)
    ensures var put, stored := UpdateRequestIntended(vc, t, n, v), CreateRequest(vc, t, n, v);
      && put.name == Some(stored.body.obj.metadata.name) == GetRequest(vc, t, n).name
      && put.namespace == stored.namespace && put.resource == stored.resource
      && put.body == stored.body && put.body.obj.version == v
  {
  }

  /** updateDefault with the corrected request. */
  function UpdateDefaultIntended(vc: VersionClient, resourceType: string, resourceName: string, version: string, rest: Rest): (err: Option<string>)
    ensures err.None? <==> rest(UpdateRequestIntended(vc, resourceType, resourceName, version)).Ok?
  {
    match rest(UpdateRequestIntended(vc, resourceType, resourceName, version))
    case Ok(_) => None
    case Err(e) => Some(e)
  }
}
