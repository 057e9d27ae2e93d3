/** Translation between the Kubernetes metadata shape and the Fission metadata
    shape (tpr/translator.go), and of whole resources and resource lists.

    Go's nil dereferences are results (`NilDereference`), not preconditions.
    The loops of the source are methods (`TranslateAll`, `MetadataFromTPR`,
    `ListFromTPR`, ...) proved against the functions `MapAll`, `MetadataFrom`,
    `MetadataTo` and `ResourceFrom`/`ResourceTo`, about which the lemmas speak.
    The four resource kinds (functions, environments, HTTP triggers, Kubernetes
    watch triggers) differ only in their spec type, so each operation is one
    member generic in that type `S`. */
module Translator {
  import opened Wrappers
  import Kube
  import opened Types

  // ---------------------------------------------------------------------------
  // Owner references

  /** OwnerReferenceFromTPR copies the four identifying fields and the value
      behind the controller pointer; a nil controller panics. */
  function OwnerReferenceFromTPR(t: Kube.OwnerReference): (r: Outcome<OwnerReference>)
    ensures r.Returns? <==> t.controller.Some?
    ensures r.Returns? ==>
      && r.value.apiVersion == t.apiVersion && r.value.kind == t.kind
      && r.value.name == t.name && r.value.uid == t.uid
      && r.value.controller == t.controller
  {
    var o := OwnerReference(t.apiVersion, t.kind, t.name, t.uid, None);
    match t.controller
    case None => NilDereference
    case Some(b) => Returns(o.(controller := Some(b)))
  }

  /** OwnerReferenceToTPR as written: it dereferences the controller of the
      object it has just built, which is still nil, so it panics on every
      input and the input's controller is never carried over. */
  function OwnerReferenceToTPR(o: OwnerReference): (r: Outcome<Kube.OwnerReference>)
    ensures r == NilDereference
  {
    var t_o := Kube.OwnerReference(o.apiVersion, o.kind, o.name, o.uid, None);
    match t_o.controller
    case None => NilDereference
    case Some(b) => Returns(t_o.(controller := Some(b)))
  }

  /** OwnerReferenceToTPR as evidently intended: dereference the input's
      controller. */
  function OwnerReferenceToTPRIntended(o: OwnerReference): (r: Outcome<Kube.OwnerReference>)
    ensures r.Returns? <==> o.controller.Some?
  {
    var t_o := Kube.OwnerReference(o.apiVersion, o.kind, o.name, o.uid, None);
    match o.controller
    case None => NilDereference
    case Some(b) => Returns(t_o.(controller := Some(b)))
  }

  /** With the intended translation an owner reference survives the round
      trip through the Kubernetes shape, in both directions. */
  lemma OwnerReferenceRoundTrip(o: OwnerReference, t: Kube.OwnerReference)
    ensures o.controller.Some? ==>
      (OwnerReferenceToTPRIntended(o).Returns?
       && OwnerReferenceFromTPR(OwnerReferenceToTPRIntended(o).value) == Returns(o))
    ensures t.controller.Some? ==>
      (OwnerReferenceFromTPR(t).Returns?
       && OwnerReferenceToTPRIntended(OwnerReferenceFromTPR(t).value) == Returns(t))
  {
  }

  // ---------------------------------------------------------------------------
  // Translating a slice element by element

  /** A loop that translates every element in order and panics as soon as
      one translation does. */
  function MapAll<A, B>(f: A -> Outcome<B>, xs: seq<A>): (r: Outcome<seq<B>>)
    ensures r.Returns? <==> forall i :: 0 <= i < |xs| ==> f(xs[i]).Returns?
    ensures r.Returns? ==> |r.value| == |xs| && forall i :: 0 <= i < |xs| ==> f(xs[i]) == Returns(r.value[i])
  {
    if xs == [] then Returns([])
    else
      match f(xs[0])
      case NilDereference => NilDereference
      case Returns(y) =>
        match MapAll(f, xs[1..])
        case NilDereference =>
          assert forall i :: 0 <= i < |xs| - 1 ==> xs[1..][i] == xs[i + 1];
          NilDereference
        case Returns(ys) => Returns([y] + ys)
  }

  /** The `for ... append` loop over owner references. */
  method TranslateAll<A, B>(f: A -> Outcome<B>, xs: seq<A>) returns (r: Outcome<seq<B>>)
    ensures r == MapAll(f, xs)
  {
    var os: seq<B> := [];
    var i := 0;
    while i < |xs|
      invariant 0 <= i <= |xs|
      invariant |os| == i
      invariant forall j :: 0 <= j < i ==> f(xs[j]) == Returns(os[j])
    {
      var o := f(xs[i]);
      if o.NilDereference? {
        return NilDereference;
      }
      os := os + [o.value];
      i := i + 1;
    }
    var all := MapAll(f, xs);
    assert all.Returns?;
    assert all.value == os;
    return Returns(os);
  }

  // ---------------------------------------------------------------------------
  // Metadata

  /** The fields both shapes share hold the same values, pointers included. */
  predicate SameFields(t: Kube.ObjectMeta, m: Metadata) {
    && m.name == t.name && m.generateName == t.generateName
    && m.namespace == t.namespace && m.selfLink == t.selfLink
    && m.uid == t.uid && m.resourceVersion == t.resourceVersion
    && m.generation == t.generation && m.creationTimestamp == t.creationTimestamp
    && m.deletionTimestamp == t.deletionTimestamp
    && m.deletionGracePeriodSeconds == t.deletionGracePeriodSeconds
    && m.labels == t.labels && m.annotations == t.annotations
    && m.finalizers == t.finalizers && m.clusterName == t.clusterName
  }

  /** MetadataFromTPR: copies every field; it panics if either pointer is
      nil or any owner reference lacks a controller. */
  function MetadataFrom(t: Kube.ObjectMeta): (r: Outcome<Metadata>)
    ensures r.Returns? <==>
      && t.deletionTimestamp.Some? && t.deletionGracePeriodSeconds.Some?
      && forall i :: 0 <= i < |t.ownerReferences| ==> t.ownerReferences[i].controller.Some?
    ensures r.Returns? ==> SameFields(t, r.value)
    ensures r.Returns? ==>
      (|r.value.ownerReferences| == |t.ownerReferences|
       && forall i :: 0 <= i < |t.ownerReferences| ==>
            OwnerReferenceFromTPR(t.ownerReferences[i]) == Returns(r.value.ownerReferences[i]))
  {
    if t.deletionTimestamp.None? || t.deletionGracePeriodSeconds.None? then NilDereference
    else
      match MapAll(OwnerReferenceFromTPR, t.ownerReferences)
      case NilDereference => NilDereference
      case Returns(os) =>
        Returns(Metadata(t.name, t.generateName, t.namespace, t.selfLink, t.uid, t.resourceVersion,
          t.generation, t.creationTimestamp, t.deletionTimestamp, t.deletionGracePeriodSeconds,
          t.labels, t.annotations, os, t.finalizers, t.clusterName))
  }

  /** The owner-reference loop of MetadataToTPR panics on a non-empty slice. */
  lemma OwnerReferencesToTPRPanic(xs: seq<OwnerReference>)
    ensures MapAll(OwnerReferenceToTPR, xs) == if xs == [] then Returns([]) else NilDereference
  {
    if xs != [] {
      assert OwnerReferenceToTPR(xs[0]).NilDereference?;
    }
  }

  /** MetadataToTPR: copies every field; it panics if either pointer is nil
      and, since OwnerReferenceToTPR always panics, on any owner reference. */
  function MetadataTo(m: Metadata): (r: Outcome<Kube.ObjectMeta>)
    ensures r.Returns? <==>
      m.deletionTimestamp.Some? && m.deletionGracePeriodSeconds.Some? && m.ownerReferences == []
    ensures r.Returns? ==> SameFields(r.value, m) && r.value.ownerReferences == []
  {
    if m.deletionTimestamp.None? || m.deletionGracePeriodSeconds.None? then NilDereference
    else
      OwnerReferencesToTPRPanic(m.ownerReferences);
      match MapAll(OwnerReferenceToTPR, m.ownerReferences)
      case NilDereference => NilDereference
      case Returns(os) =>
        Returns(Kube.ObjectMeta(m.name, m.generateName, m.namespace, m.selfLink, m.uid, m.resourceVersion,
          m.generation, m.creationTimestamp, m.deletionTimestamp, m.deletionGracePeriodSeconds,
          m.labels, m.annotations, os, m.finalizers, m.clusterName))
  }

  /** Translating Kubernetes metadata to Fission metadata and back gives the
      original back exactly when it has no owner references; with owner
      references the way back panics. */
  lemma MetadataRoundTrip(t: Kube.ObjectMeta)
    requires MetadataFrom(t).Returns?
    ensures MetadataTo(MetadataFrom(t).value).Returns? <==> t.ownerReferences == []
    ensures t.ownerReferences == [] ==> MetadataTo(MetadataFrom(t).value) == Returns(t)
  {
  }

  /** The other direction: Fission metadata that reaches the Kubernetes shape
      comes back unchanged. */
  lemma MetadataRoundTripFromFission(m: Metadata)
    requires MetadataTo(m).Returns?
    ensures MetadataFrom(MetadataTo(m).value) == Returns(m)
  {
  }

  /** MetadataFromTPR, step by step. */
  method MetadataFromTPR(t: Kube.ObjectMeta) returns (r: Outcome<Metadata>)
    ensures r == MetadataFrom(t)
  {
    if t.deletionTimestamp.None? || t.deletionGracePeriodSeconds.None? {
      return NilDereference;
    }
    var os := TranslateAll(OwnerReferenceFromTPR, t.ownerReferences);
    if os.NilDereference? {
      return NilDereference;
    }
    var m := Metadata(t.name, t.generateName, t.namespace, t.selfLink, t.uid, t.resourceVersion,
      t.generation, t.creationTimestamp, t.deletionTimestamp, t.deletionGracePeriodSeconds,
      t.labels, t.annotations, os.value, t.finalizers, t.clusterName);
    return Returns(m);
  }

  /** MetadataToTPR, step by step. */
  method MetadataToTPR(m: Metadata) returns (r: Outcome<Kube.ObjectMeta>)
    ensures r == MetadataTo(m)
  {
    if m.deletionTimestamp.None? || m.deletionGracePeriodSeconds.None? {
      return NilDereference;
    }
    var os := TranslateAll(OwnerReferenceToTPR, m.ownerReferences);
    if os.NilDereference? {
      return NilDereference;
    }
    var t := Kube.ObjectMeta(m.name, m.generateName, m.namespace, m.selfLink, m.uid, m.resourceVersion,
      m.generation, m.creationTimestamp, m.deletionTimestamp, m.deletionGracePeriodSeconds,
      m.labels, m.annotations, os.value, m.finalizers, m.clusterName);
    return Returns(t);
  }

  // ---------------------------------------------------------------------------
  // Whole resources: FunctionFromTPR, EnvironmentFromTPR, HttpTriggerFromTPR,
  // KubernetesWatchTriggerFromTPR and their ToTPR counterparts

  /** A resource's metadata is translated and its spec is kept as it is. */
  function ResourceFrom<S>(t: Kube.TprResource<S>): (r: Outcome<Resource<S>>)
    ensures r.Returns? <==> MetadataFrom(t.metadata).Returns?
    ensures r.Returns? ==> r.value.spec == t.spec && Returns(r.value.metadata) == MetadataFrom(t.metadata)
  {
    match MetadataFrom(t.metadata)
    case NilDereference => NilDereference
    case Returns(m) => Returns(Resource(m, t.spec))
  }

  function ResourceTo<S>(f: Resource<S>): (r: Outcome<Kube.TprResource<S>>)
    ensures r.Returns? <==> MetadataTo(f.metadata).Returns?
    ensures r.Returns? ==> r.value.spec == f.spec && Returns(r.value.metadata) == MetadataTo(f.metadata)
  {
    match MetadataTo(f.metadata)
    case NilDereference => NilDereference
    case Returns(t) => Returns(Kube.TprResource(t, f.spec))
  }

  /** The resource round trip inherits the metadata one: the spec always
      survives, the whole resource exactly when there are no owner references. */
  lemma ResourceRoundTrip<S>(t: Kube.TprResource<S>)
    requires ResourceFrom(t).Returns?
    ensures ResourceTo(ResourceFrom(t).value).Returns? <==> t.metadata.ownerReferences == []
    ensures t.metadata.ownerReferences == [] ==> ResourceTo(ResourceFrom(t).value) == Returns(t)
  {
    MetadataRoundTrip(t.metadata);
  }

  method ResourceFromTPR<S>(t: Kube.TprResource<S>) returns (r: Outcome<Resource<S>>)
    ensures r == ResourceFrom(t)
  {
    var m := MetadataFromTPR(t.metadata);
    if m.NilDereference? {
      return NilDereference;
    }
    return Returns(Resource(m.value, t.spec));
  }

  method ResourceToTPR<S>(f: Resource<S>) returns (r: Outcome<Kube.TprResource<S>>)
    ensures r == ResourceTo(f)
  {
    var t := MetadataToTPR(f.metadata);
    if t.NilDereference? {
      return NilDereference;
    }
    return Returns(Kube.TprResource(t.value, f.spec));
  }

  // ---------------------------------------------------------------------------
  // Lists: FunctionListFromTPR, EnvironmentListFromTPR, HttpTriggerListFromTPR,
  // KubernetesWatchTriggerListFromTPR

  /** The Go zero value of a resource whose spec type has zero value `zeroSpec`. */
  function ZeroResource<S>(zeroSpec: S): Resource<S> {
    Resource(ZeroMetadata, zeroSpec)
  }

  /** As written: the slice is made with length n and the translations are
      appended to it, so the result has 2n elements, n zero values followed
      by the n translated items in order. */
  method ListFromTPR<S>(items: seq<Kube.TprResource<S>>, zeroSpec: S) returns (r: Outcome<seq<Resource<S>>>)
    ensures r.Returns? <==> forall i :: 0 <= i < |items| ==> ResourceFrom(items[i]).Returns?
    ensures r.Returns? ==> |r.value| == 2 * |items|
    ensures r.Returns? ==> forall i :: 0 <= i < |items| ==> r.value[i] == ZeroResource(zeroSpec)
    ensures r.Returns? ==> forall i :: 0 <= i < |items| ==> Returns(r.value[|items| + i]) == ResourceFrom(items[i])
  {
    var n := |items|;
    var fs := seq(n, _ => ZeroResource(zeroSpec));
    var i := 0;
    while i < n
      invariant 0 <= i <= n
      invariant |fs| == n + i
      invariant forall j :: 0 <= j < n ==> fs[j] == ZeroResource(zeroSpec)
      invariant forall j :: 0 <= j < i ==> Returns(fs[n + j]) == ResourceFrom(items[j])
    {
      var f := ResourceFromTPR(items[i]);
      if f.NilDereference? {
        return NilDereference;
      }
      fs := fs + [f.value];
      i := i + 1;
    }
    return Returns(fs);
  }

  /** As evidently intended: an empty slice (capacity n) with the n
      translations appended, one element per item. */
  method ListFromTPRIntended<S>(items: seq<Kube.TprResource<S>>) returns (r: Outcome<seq<Resource<S>>>)
    ensures r.Returns? <==> forall i :: 0 <= i < |items| ==> ResourceFrom(items[i]).Returns?
    ensures r.Returns? ==> |r.value| == |items|
    ensures r.Returns? ==> forall i :: 0 <= i < |items| ==> Returns(r.value[i]) == ResourceFrom(items[i])
  {
    var fs: seq<Resource<S>> := [];
    var i := 0;
    while i < |items|
      invariant 0 <= i <= |items|
      invariant |fs| == i
      invariant forall j :: 0 <= j < i ==> Returns(fs[j]) == ResourceFrom(items[j])
    {
      var f := ResourceFromTPR(items[i]);
      if f.NilDereference? {
        return NilDereference;
      }
      fs := fs + [f.value];
      i := i + 1;
    }
    return Returns(fs);
  }

  // The four list translations of the source: the same loop at each kind,
  // the leading elements being that kind's Go zero value.

  /** FunctionListFromTPR: the list of functions, doubled as written. */
  method FunctionListFromTPR(items: seq<Kube.TprResource<FunctionSpec>>) returns (r: Outcome<seq<Function>>)
    ensures r.Returns? <==> forall i :: 0 <= i < |items| ==> ResourceFrom(items[i]).Returns?
    ensures r.Returns? ==> |r.value| == 2 * |items|
    ensures r.Returns? ==> forall i :: 0 <= i < |items| ==> r.value[i] == Resource(ZeroMetadata, ZeroFunctionSpec)
    ensures r.Returns? ==> forall i :: 0 <= i < |items| ==> Returns(r.value[|items| + i]) == ResourceFrom(items[i])
  {
    r := ListFromTPR(items, ZeroFunctionSpec);
  }

  /** EnvironmentListFromTPR: the list of environments, doubled as written. */
  method EnvironmentListFromTPR(items: seq<Kube.TprResource<EnvironmentSpec>>) returns (r: Outcome<seq<Environment>>)
    ensures r.Returns? <==> forall i :: 0 <= i < |items| ==> ResourceFrom(items[i]).Returns?
    ensures r.Returns? ==> |r.value| == 2 * |items|
    ensures r.Returns? ==> forall i :: 0 <= i < |items| ==> r.value[i] == Resource(ZeroMetadata, ZeroEnvironmentSpec)
    ensures r.Returns? ==> forall i :: 0 <= i < |items| ==> Returns(r.value[|items| + i]) == ResourceFrom(items[i])
  {
    r := ListFromTPR(items, ZeroEnvironmentSpec);
  }

  /** HttpTriggerListFromTPR: the list of HTTP triggers, doubled as written. */
  method HttpTriggerListFromTPR(items: seq<Kube.TprResource<HTTPTriggerSpec>>) returns (r: Outcome<seq<HTTPTrigger>>)
    ensures r.Returns? <==> forall i :: 0 <= i < |items| ==> ResourceFrom(items[i]).Returns?
    ensures r.Returns? ==> |r.value| == 2 * |items|
    ensures r.Returns? ==> forall i :: 0 <= i < |items| ==> r.value[i] == Resource(ZeroMetadata, ZeroHTTPTriggerSpec)
    ensures r.Returns? ==> forall i :: 0 <= i < |items| ==> Returns(r.value[|items| + i]) == ResourceFrom(items[i])
  {
    r := ListFromTPR(items, ZeroHTTPTriggerSpec);
  }

  /** KubernetesWatchTriggerListFromTPR: the list of Kubernetes watch triggers, doubled as written. */
  method KubernetesWatchTriggerListFromTPR(items: seq<Kube.TprResource<KubernetesWatchTriggerSpec>>) returns (r: Outcome<seq<KubernetesWatchTrigger>>)
    ensures r.Returns? <==> forall i :: 0 <= i < |items| ==> ResourceFrom(items[i]).Returns?
    ensures r.Returns? ==> |r.value| == 2 * |items|
    ensures r.Returns? ==> forall i :: 0 <= i < |items| ==> r.value[i] == Resource(ZeroMetadata, ZeroKubernetesWatchTriggerSpec)
    ensures r.Returns? ==> forall i :: 0 <= i < |items| ==> Returns(r.value[|items| + i]) == ResourceFrom(items[i])
  {
    r := ListFromTPR(items, ZeroKubernetesWatchTriggerSpec);
  }
}
