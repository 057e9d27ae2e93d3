/** The pool manager's start-up glue (poolmgr/poolmgr.go): the key under which a
    function's service is cached, and the normalised controller URL. */
module Poolmgr {
  import Kube
  import Text

  /** The cache key of a resource: its UID and its resource version joined by
      an underscore. The resource version changes on every update, so the key
      names one version of the content. */
  function CacheKey(metadata: Kube.ObjectMeta): (k: string)
    ensures |k| == |metadata.uid| + 1 + |metadata.resourceVersion|
    ensures k[..|metadata.uid|] == metadata.uid && k[|metadata.uid|] == '_'
    ensures k[|metadata.uid| + 1..] == metadata.resourceVersion
  {
    metadata.uid + "_" + metadata.resourceVersion
  }

  /** The key is made of the UID and the resource version alone: name,
      namespace, labels and every other field leave it unchanged. */
  lemma CacheKeyDependsOnlyOnIdentity(m1: Kube.ObjectMeta, m2: Kube.ObjectMeta)
    requires m1.uid == m2.uid && m1.resourceVersion == m2.resourceVersion
    ensures CacheKey(m1) == CacheKey(m2)
  {
  }

  /** Updating a resource (same UID, new resource version) gives a new key,
      so a service specialised for old content is never found for new content. */
  lemma CacheKeyNewVersion(m1: Kube.ObjectMeta, m2: Kube.ObjectMeta)
    requires m1.uid == m2.uid && m1.resourceVersion != m2.resourceVersion
    ensures CacheKey(m1) != CacheKey(m2)
  {
    var n := |m1.uid| + 1;
    assert CacheKey(m1)[n..] == m1.resourceVersion;
    assert CacheKey(m2)[n..] == m2.resourceVersion;
  }

  /** Two resources with different UIDs never share a key at the same
      resource version. */
  lemma CacheKeyNewUid(m1: Kube.ObjectMeta, m2: Kube.ObjectMeta)
    requires m1.resourceVersion == m2.resourceVersion && m1.uid != m2.uid
    ensures CacheKey(m1) != CacheKey(m2)
  {
    if |m1.uid| == |m2.uid| {
      assert CacheKey(m1)[..|m1.uid|] == m1.uid;
      assert CacheKey(m2)[..|m2.uid|] == m2.uid;
    }
  }

  /** When UIDs hold no underscore (Kubernetes UIDs are UUIDs), the key
      determines both the UID and the resource version. */
  lemma CacheKeyInjective(m1: Kube.ObjectMeta, m2: Kube.ObjectMeta)
    requires '_' !in m1.uid && '_' !in m2.uid
    requires CacheKey(m1) == CacheKey(m2)
    ensures m1.uid == m2.uid && m1.resourceVersion == m2.resourceVersion
  {
    UnderscoreAfterUid(m1);
    UnderscoreAfterUid(m2);
    assert |m1.uid| == |m2.uid|;
    CacheKeyNewUidOrVersion(m1, m2);
  }

  /** In the key of a resource whose UID holds no underscore, the first
      underscore is the separator. */
  lemma UnderscoreAfterUid(m: Kube.ObjectMeta)
    requires '_' !in m.uid
    ensures CacheKey(m)[|m.uid|] == '_'
    ensures forall i :: 0 <= i < |m.uid| ==> CacheKey(m)[i] != '_'
  {
    forall i | 0 <= i < |m.uid| ensures CacheKey(m)[i] != '_' {
      assert CacheKey(m)[i] == m.uid[i];
    }
  }

  lemma CacheKeyNewUidOrVersion(m1: Kube.ObjectMeta, m2: Kube.ObjectMeta)
    requires |m1.uid| == |m2.uid| && CacheKey(m1) == CacheKey(m2)
    ensures m1.uid == m2.uid && m1.resourceVersion == m2.resourceVersion
  {
    var k, n := CacheKey(m1), |m1.uid|;
    assert k[..n] == m1.uid && CacheKey(m2)[..n] == m2.uid;
    assert k[n + 1..] == m1.resourceVersion && CacheKey(m2)[n + 1..] == m2.resourceVersion;
  }

  /** Without that assumption the key is ambiguous: UID "a_b" at version "c"
      and UID "a" at version "b_c" share the key "a_b_c". */
  lemma CacheKeyAmbiguousWithUnderscore()
    ensures CacheKey(Kube.ZeroObjectMeta.(uid := "a_b", resourceVersion := "c"))
         == CacheKey(Kube.ZeroObjectMeta.(uid := "a", resourceVersion := "b_c"))
  {
  }

  /** StartPoolmgr strips one trailing "/" from the controller URL before use. */
  function ControllerBaseUrl(controllerUrl: string): (r: string)
    ensures Text.HasSuffix(controllerUrl, "/") ==> r + "/" == controllerUrl
    ensures !Text.HasSuffix(controllerUrl, "/") ==> r == controllerUrl
  {
    Text.TrimSuffix(controllerUrl, "/")
  }
}
