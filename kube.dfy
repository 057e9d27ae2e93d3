/** The Kubernetes API record shapes the core reads and writes (client-go's
    api.ObjectMeta and api.OwnerReference). They are data only. */
module Kube {
  import opened Wrappers

  /** unversioned.Time; its conversion to and from fission.Time keeps the value. */
  datatype Time = Time(seconds: int, nanos: int)

  const ZeroTime: Time := Time(0, 0)

  /** api.OwnerReference; `controller` is a *bool. */
  datatype OwnerReference = OwnerReference(
    apiVersion: string,
    kind: string,
    name: string,
    uid: string,
    controller: Option<bool>)

  /** api.ObjectMeta; the two pointer fields are Options. */
  datatype ObjectMeta = ObjectMeta(
    name: string,
    generateName: string,
    namespace: string,
    selfLink: string,
    uid: string,
    resourceVersion: string,
    generation: int,
    creationTimestamp: Time,
    deletionTimestamp: Option<Time>,
    deletionGracePeriodSeconds: Option<int>,
    labels: map<string, string>,
    annotations: map<string, string>,
    ownerReferences: seq<OwnerReference>,
    finalizers: seq<string>,
    clusterName: string)

  /** The zero value of api.ObjectMeta: every field empty, both pointers nil. */
  const ZeroObjectMeta: ObjectMeta :=
    ObjectMeta("", "", "", "", "", "", 0, ZeroTime, None, None, map[], map[], [], [], "")

  /** A third-party-resource object as stored in Kubernetes: metadata plus the
      resource kind's own spec. */
  datatype TprResource<S> = TprResource(metadata: ObjectMeta, spec: S)
}
