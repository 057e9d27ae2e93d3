/** The executor client used by the router (executor/client/client.go): it asks
    the executor for a function's service address and batches "tap" (still in
    use) notifications, flushing them on a timer.

    HTTP is a `Transport` function from (URL, request body) to what came back.
    The service goroutine's two select cases become the methods `TapService`
    (a tap arrives on the channel) and `Tick` (the ticker fires); the goroutine
    a tick starts is the method `Dispatch`, which runs later. */
module ExecutorClient {
  import opened Wrappers
  import Text

  /** What an HTTP POST came back with; `body` is the result of reading the
      response body. */
  datatype Exchange =
    | TransportFailed(message: string)
    | Responded(status: int, body: Result<string, string>)

  type Transport = (string, string) -> Exchange

  /** The client's errors: the transport's, the body read's, or a non-200
      status turned into an error (fission.MakeErrorFromHTTP). */
  datatype ClientError =
    | TransportError(message: string)
    | ReadError(message: string)
    | StatusError(status: int)

  const GetServicePath: string := "/v2/getServiceForFunction"
  const TapServicePath: string := "/v2/tapService"

  /** The executor URL as MakeClient keeps it: one trailing "/" removed. */
  function BaseUrl(executorUrl: string): (r: string)
    ensures Text.HasSuffix(executorUrl, "/") ==> r + "/" == executorUrl
    ensures !Text.HasSuffix(executorUrl, "/") ==> r == executorUrl
  {
    Text.TrimSuffix(executorUrl, "/")
  }

  /** An executor URL given with or without one trailing slash leads to the
      same endpoints. */
  lemma TrailingSlashIgnored(executorUrl: string, path: string)
    requires !Text.HasSuffix(executorUrl, "/")
    ensures BaseUrl(executorUrl + "/") + path == BaseUrl(executorUrl) + path
    ensures BaseUrl(executorUrl + "/") == executorUrl
  {
    var u := executorUrl + "/";
    assert Text.HasSuffix(u, "/") by { assert u[|u| - 1..] == "/"; }
    assert u[..|u| - 1] == executorUrl;
  }

  // ---------------------------------------------------------------------------
  // Tap coalescing over values

  /** The pending set after one tap: the URL is marked, whatever it held. */
  function Tapped(pending: map<string, bool>, serviceUrl: string): (r: map<string, bool>)
    ensures r.Keys == pending.Keys + {serviceUrl} && r[serviceUrl]
    ensures forall v :: v in pending && v != serviceUrl ==> r[v] == pending[v]
  {
    pending[serviceUrl := true]
  }

  /** The pending set after a run of taps, in order. */
  function AfterTaps(pending: map<string, bool>, urls: seq<string>): (r: map<string, bool>)
    ensures forall u :: u in pending ==> u in r && (pending[u] ==> r[u])
    ensures forall u :: u in urls ==> u in r && r[u]
    decreases |urls|
  {
    if urls == [] then pending
    else
      assert forall u :: u in urls ==> u == urls[0] || u in urls[1..];
      AfterTaps(Tapped(pending, urls[0]), urls[1..])
  }

  /** After a run of taps the pending set holds each tapped URL exactly
      once, beside what it held before, all marked true. */
  lemma {:induction false} AfterTapsKeys(pending: map<string, bool>, urls: seq<string>)
    requires forall u :: u in pending ==> pending[u]
    ensures AfterTaps(pending, urls).Keys == pending.Keys + set u | u in urls
    ensures forall u :: u in AfterTaps(pending, urls) ==> AfterTaps(pending, urls)[u]
    decreases |urls|
  {
    if urls != [] {
      AfterTapsKeys(Tapped(pending, urls[0]), urls[1..]);
      assert (set u | u in urls) == {urls[0]} + set u | u in urls[1..];
    }
  }

  function Repeat(u: string, k: nat): (s: seq<string>)
    ensures |s| == k && forall i :: 0 <= i < k ==> s[i] == u
  {
    if k == 0 then [] else [u] + Repeat(u, k - 1)
  }

  /** Any number of taps for one address within one interval leave exactly
      one entry for it. */
  lemma TapsCoalesce(u: string, k: nat)
    requires k > 0
    ensures AfterTaps(map[], Repeat(u, k)).Keys == {u}
    ensures |AfterTaps(map[], Repeat(u, k))| == 1
  {
    AfterTapsKeys(map[], Repeat(u, k));
    assert (set v | v in Repeat(u, k)) == {u} by {
      assert Repeat(u, k)[0] == u;
    }
  }

  // ---------------------------------------------------------------------------
  // The client object

  class Client {
    const executorUrl: string
    var tappedByUrl: map<string, bool>
    /** Batch goroutines started by a tick that have not run yet. */
    var pendingDispatches: nat

    /** MakeClient (the service goroutine is the methods below). */
    constructor (executorUrl: string)
      ensures this.executorUrl == BaseUrl(executorUrl)
      ensures tappedByUrl == map[] && pendingDispatches == 0
    {
      this.executorUrl := BaseUrl(executorUrl);
      tappedByUrl := map[];
      pendingDispatches := 0;
    }

    /** GetServiceForFunction: POST the function's metadata (already encoded
      as JSON) to the lookup endpoint; a 200 reply's body, verbatim, is the
      service address, every other status is an error carrying it. */
    function GetServiceForFunction(metadataJson: string, post: Transport): (r: Result<string, ClientError>)
      ensures var ex := post(executorUrl + GetServicePath, metadataJson);
        && (r.Ok? <==> ex.Responded? && ex.status == 200 && ex.body.Ok?)
        && (r.Ok? ==> r.value == ex.body.value)
        && (ex.Responded? && ex.status != 200 ==> r == Err(StatusError(ex.status)))
    {
      match post(executorUrl + GetServicePath, metadataJson)
      case TransportFailed(msg) => Err(TransportError(msg))
      case Responded(status, body) =>
        if status != 200 then Err(StatusError(status))
        else match body
          case Err(msg) => Err(ReadError(msg))
          case Ok(svcName) => Ok(svcName)
    }

    /** _tapService: POST the raw service URL to the tap endpoint; nil error
      exactly on a 200 reply. */
    function TapServiceCall(serviceUrl: string, post: Transport): (err: Option<ClientError>)
      ensures var ex := post(executorUrl + TapServicePath, serviceUrl);
        && (err.None? <==> ex.Responded? && ex.status == 200)
        && (ex.Responded? && ex.status != 200 ==> err == Some(StatusError(ex.status)))
    {
      match post(executorUrl + TapServicePath, serviceUrl)
      case TransportFailed(msg) => Some(TransportError(msg))
      case Responded(status, _) => if status != 200 then Some(StatusError(status)) else None
    }

    /** A tap arrives: the address is marked in the pending set. */
    method TapService(serviceUrl: string)
      modifies this
      ensures tappedByUrl == Tapped(old(tappedByUrl), serviceUrl)
      ensures pendingDispatches == old(pendingDispatches)
    {
      tappedByUrl := tappedByUrl[serviceUrl := true];
    }

    /** A run of taps, one after the other, as the service goroutine receives
      them: the pending set is `AfterTaps` of the old one. */
    method TapAll(urls: seq<string>)
      modifies this
      ensures tappedByUrl == AfterTaps(old(tappedByUrl), urls)
      ensures pendingDispatches == old(pendingDispatches)
    {
      var i := 0;
      while i < |urls|
        invariant 0 <= i <= |urls|
        invariant AfterTaps(tappedByUrl, urls[i..]) == AfterTaps(old(tappedByUrl), urls)
        invariant pendingDispatches == old(pendingDispatches)
      {
        assert urls[i..][1..] == urls[i + 1..];
        TapService(urls[i]);
        i := i + 1;
      }
    }

    /** The ticker fires: the pending set is captured as the batch and replaced
      by an empty one; a non-empty batch starts a batch goroutine. */
    method Tick() returns (batch: set<string>)
      modifies this
      ensures batch == old(tappedByUrl).Keys
      ensures tappedByUrl == map[]
      ensures pendingDispatches == old(pendingDispatches) + if |batch| > 0 then 1 else 0
    {
      var urls := tappedByUrl;
      tappedByUrl := map[];
      batch := urls.Keys;
      if |urls| > 0 {
        pendingDispatches := pendingDispatches + 1;
      }
    }

    /** A batch goroutine runs, as written: it walks the client's current
      pending set, not the batch its tick captured. */
    method Dispatch(post: Transport) returns (posted: seq<string>)
      requires pendingDispatches > 0
      modifies this
      ensures pendingDispatches == old(pendingDispatches) - 1
      ensures tappedByUrl == old(tappedByUrl)
      ensures (set u | u in posted) == tappedByUrl.Keys && |posted| == |tappedByUrl|
    {
      posted := PostEach(tappedByUrl.Keys, post);
      pendingDispatches := pendingDispatches - 1;
    }

    /** The tick as evidently intended: the captured batch itself is posted. */
    method TickIntended(post: Transport) returns (batch: set<string>, posted: seq<string>)
      modifies this
      ensures batch == old(tappedByUrl).Keys
      ensures tappedByUrl == map[] && pendingDispatches == old(pendingDispatches)
      ensures (set u | u in posted) == batch && |posted| == |batch|
    {
      var urls := tappedByUrl;
      tappedByUrl := map[];
      batch := urls.Keys;
      posted := [];
      if |urls| > 0 {
        posted := PostEach(batch, post);
      }
    }

    /** The loop of a batch goroutine: one _tapService call per address, in
      some order, each address once; errors are dropped. */
    method PostEach(urls: set<string>, post: Transport) returns (posted: seq<string>)
      ensures (set u | u in posted) == urls
      ensures |posted| == |urls|
      ensures forall i, j :: 0 <= i < j < |posted| ==> posted[i] != posted[j]
    {
      posted := [];
      var remaining := urls;
      while remaining != {}
        invariant remaining <= urls
        invariant (set u | u in posted) == urls - remaining
        invariant |posted| + |remaining| == |urls|
        invariant forall i, j :: 0 <= i < j < |posted| ==> posted[i] != posted[j]
        decreases remaining
      {
        var u :| u in remaining;
        var _ := TapServiceCall(u, post);
        assert u !in posted;
        assert (set x | x in posted + [u]) == (set x | x in posted) + {u};
        posted := posted + [u];
        remaining := remaining - {u};
      }
    }
  }

  // ---------------------------------------------------------------------------
  // Runs of the client

  /** As written: taps `earlier` arrive, the ticker fires, taps `later` arrive,
      and then the batch goroutine runs. An address tapped before the tick and
      not after it is in the tick's batch but is never posted. */
  method LostTapScenario(executorUrl: string, post: Transport, earlier: seq<string>, later: seq<string>, u: string)
    returns (batch: set<string>, posted: seq<string>)
    requires u in earlier && u !in later
    ensures u in batch && u !in posted
    ensures batch == set v | v in earlier
    ensures (set v | v in posted) == set v | v in later
  {
    var c := new Client(executorUrl);
    c.TapAll(earlier);
    AfterTapsKeys(map[], earlier);
    batch := c.Tick();
    c.TapAll(later);
    AfterTapsKeys(map[], later);
    posted := c.Dispatch(post);
  }

  /** The smallest case: one tap for "svc", then a tick, then the batch
      goroutine. The batch is {"svc"} and nothing is posted. */
  method TapLostExample(post: Transport) returns (batch: set<string>, posted: seq<string>)
    ensures batch == {"svc"} && posted == []
  {
    var c := new Client("http://executor/");
    c.TapService("svc");
    batch := c.Tick();
    posted := c.Dispatch(post);
  }

  /** The same run with the corrected tick: every address tapped before the
      tick is posted, each once. */
  method IntendedTapScenario(executorUrl: string, post: Transport, earlier: seq<string>)
    returns (batch: set<string>, posted: seq<string>)
    ensures batch == set v | v in earlier
    ensures (set v | v in posted) == batch && |posted| == |batch|
  {
    var c := new Client(executorUrl);
    c.TapAll(earlier);
    AfterTapsKeys(map[], earlier);
    batch, posted := c.TickIntended(post);
  }
}
