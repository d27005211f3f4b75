/** The vector-store service of the backend. The hosted index is modelled by
    the only thing the service ever reads from it: for each namespace, how many
    vectors it holds (plus the order in which the index lists namespaces and its
    dimension). The service keeps an in-memory cache from video id to store
    handle, consulted before the index. Failures of the hosted index surface
    as a `fault` input: `Some(message)` means the awaited call throws that
    message. */
module VectorStore {
  import opened Common

  /** Every per-video operation addresses namespace `"video_" + videoId`. */
  const NamespacePrefix := "video_"

  function Namespace(videoId: string): (ns: string)
    ensures StartsWith(ns, NamespacePrefix) && ns[|NamespacePrefix|..] == videoId
  {
    NamespacePrefix + videoId
  }

  /** `ns.replace("video_", "")` for a namespace that starts with the prefix: the
      first occurrence is the prefix itself, so it is the prefix that goes. */
  function VideoIdOf(ns: string): (id: string)
    requires StartsWith(ns, NamespacePrefix)
    ensures NamespacePrefix + id == ns
  {
    assert ns == ns[..|NamespacePrefix|] + ns[|NamespacePrefix|..];
    ns[|NamespacePrefix|..]
  }

  /** Namespaces and video ids are in one-to-one correspondence. */
  lemma NamespaceRoundTrip(videoId: string, ns: string)
    ensures VideoIdOf(Namespace(videoId)) == videoId
    ensures StartsWith(ns, NamespacePrefix) ==> Namespace(VideoIdOf(ns)) == ns
    ensures forall other :: Namespace(other) == Namespace(videoId) ==> other == videoId
  {
    forall other | Namespace(other) == Namespace(videoId) ensures other == videoId {
      assert Namespace(other)[|NamespacePrefix|..] == other;
    }
  }

  ghost predicate Distinct(s: seq<string>)
  {
    forall i, j :: 0 <= i < j < |s| ==> s[i] != s[j]
  }

  /** `s` without the element `x`, the rest in order. */
  function Without(s: seq<string>, x: string): (r: seq<string>)
    ensures forall y :: y in r <==> y in s && y != x
    ensures Distinct(s) ==> Distinct(r)
  {
    if s == [] then []
    else
      var tail := Without(s[1..], x);
      assert Distinct(s) ==> Distinct(s[1..]) && s[0] !in s[1..];
      if s[0] == x then tail else [s[0]] + tail
  }

  /** The hosted index as the service sees it through `describeIndexStats`. */
  datatype NamespaceIndex = NamespaceIndex(order: seq<string>, counts: map<string, nat>, dimension: nat)
  {
    /** The namespaces are listed once each, and exactly those that hold counts. */
    ghost predicate Valid()
    {
      Distinct(order) && forall ns :: ns in counts <==> ns in order
    }

    /** `vectorCount` of a namespace; an absent namespace holds none. */
    function Count(ns: string): nat
    {
      if ns in counts then counts[ns] else 0
    }

    /** Adding `n` vectors to a namespace; the documents get fresh ids, so nothing is overwritten. */
    function Upsert(ns: string, n: nat): (r: NamespaceIndex)
      requires Valid()
      ensures r.Valid() && r.dimension == dimension
      ensures r.Count(ns) == Count(ns) + n
      ensures n > 0 ==> ns in r.counts
      ensures n == 0 ==> r == this
      ensures forall other :: other != ns ==> (other in r.counts <==> other in counts) && r.Count(other) == Count(other)
      ensures order <= r.order
    {
      if n == 0 then this
      else if ns in counts then NamespaceIndex(order, counts[ns := counts[ns] + n], dimension)
      else NamespaceIndex(order + [ns], counts[ns := n], dimension)
    }

    /** `namespace(ns).deleteAll()`: the namespace and its vectors are gone. */
    function Drop(ns: string): (r: NamespaceIndex)
      requires Valid()
      ensures r.Valid() && r.dimension == dimension
      ensures ns !in r.counts && r.Count(ns) == 0
      ensures forall other :: other != ns ==> (other in r.counts <==> other in counts) && r.Count(other) == Count(other)
    {
      NamespaceIndex(Without(order, ns), counts - {ns}, dimension)
    }
  }

  /** `getProcessedVideos`' pipeline over the listed namespace keys: keep those that
      start with the prefix, strip it, and keep the ids whose namespace holds vectors. */
  function ProcessedVideoIds(keys: seq<string>, counts: map<string, nat>): (ids: seq<string>)
    requires forall ns :: ns in keys ==> ns in counts
  {
    if keys == [] then []
    else
      var ns := keys[0];
      var head := if StartsWith(ns, NamespacePrefix) && counts[NamespacePrefix + VideoIdOf(ns)] > 0
                  then [VideoIdOf(ns)] else [];
      head + ProcessedVideoIds(keys[1..], counts)
  }

  /** Exactly the ids whose namespace is listed and holds at least one vector. */
  lemma {:induction false} ProcessedVideoIdsMembership(keys: seq<string>, counts: map<string, nat>)
    requires forall ns :: ns in keys ==> ns in counts
    ensures forall s :: s in ProcessedVideoIds(keys, counts) <==> Namespace(s) in keys && counts[Namespace(s)] > 0
  {
    if keys != [] {
      ProcessedVideoIdsMembership(keys[1..], counts);
      var ns := keys[0];
      forall s ensures s in ProcessedVideoIds(keys, counts) <==> Namespace(s) in keys && counts[Namespace(s)] > 0 {
        NamespaceRoundTrip(s, ns);
        assert Namespace(s) in keys <==> Namespace(s) == ns || Namespace(s) in keys[1..];
      }
    }
  }

  /** The pipeline keeps the index's listing order: it distributes over concatenation. */
  lemma {:induction false} ProcessedVideoIdsInOrder(a: seq<string>, b: seq<string>, counts: map<string, nat>)
    requires forall ns :: ns in a ==> ns in counts
    requires forall ns :: ns in b ==> ns in counts
    ensures ProcessedVideoIds(a + b, counts) == ProcessedVideoIds(a, counts) + ProcessedVideoIds(b, counts)
  {
    if a == [] {
      assert a + b == b;
    } else {
      assert (a + b)[0] == a[0] && (a + b)[1..] == a[1..] + b;
      ProcessedVideoIdsInOrder(a[1..], b, counts);
    }
  }

  /** `totalVectorCount`: the vectors of every listed namespace. */
  function TotalVectors(keys: seq<string>, counts: map<string, nat>): nat
    requires forall ns :: ns in keys ==> ns in counts
  {
    if keys == [] then 0 else counts[keys[0]] + TotalVectors(keys[1..], counts)
  }

  /** What `getStorageStats` reports. */
  datatype StorageStats = StorageStats(processedVideos: nat, memoryCacheSize: nat, videoIds: seq<string>,
                                       totalVectors: nat, indexDimension: nat)

  /** What the library hands the max-marginal-relevance search. */
  datatype MmrRequest = MmrRequest(namespace: string, query: string, k: int, fetchK: int)

  /** A chunk of transcript text, as stored and as retrieved. */
  datatype Document = Document(pageContent: string)

  /** A client handle bound to one namespace (`PineconeStore`); handles are compared by identity. */
  class StoreHandle {
    const namespace: string

    constructor (namespace: string)
      ensures this.namespace == namespace
    {
      this.namespace := namespace;
    }
  }

  class VectorStoreService {
    /** The in-memory cache from video id to handle. */
    var vectorStores: map<string, StoreHandle>
    /** The hosted index, as described above. */
    var index: NamespaceIndex

    ghost predicate Valid()
      reads this
    {
      index.Valid() && forall id :: id in vectorStores ==> vectorStores[id].namespace == Namespace(id)
    }

    constructor (index: NamespaceIndex)
      requires index.Valid()
      ensures Valid() && vectorStores == map[] && this.index == index
    {
      vectorStores := map[];
      this.index := index;
    }

    /** `createVectorStore`: upsert the documents into the video's namespace and cache
        the new handle, replacing any earlier one. */
    method CreateVectorStore(documents: seq<Document>, videoId: string, fault: Option<string>)
      returns (r: Remote<StoreHandle>)
      requires Valid()
      modifies this
      ensures Valid()
      ensures fault.Some? ==> r == Throws(fault.value) && vectorStores == old(vectorStores) && index == old(index)
      ensures fault.None? ==> r.Returns? && fresh(r.value) && r.value.namespace == Namespace(videoId)
                              && vectorStores == old(vectorStores)[videoId := r.value]
                              && index == old(index).Upsert(Namespace(videoId), |documents|)
    {
      if fault.Some? {
        return Throws(fault.value);
      }
      var ns := Namespace(videoId);
      index := index.Upsert(ns, |documents|);
      var handle := new StoreHandle(ns);
      vectorStores := vectorStores[videoId := handle];
      r := Returns(handle);
    }

    /** `loadVectorStore`: a cached handle without touching the index; otherwise a new
        handle on the video's namespace, cached. */
    method LoadVectorStore(videoId: string, fault: Option<string>) returns (r: Remote<StoreHandle>)
      requires Valid()
      modifies this
      ensures Valid() && index == old(index)
      ensures videoId in old(vectorStores) ==> r == Returns(old(vectorStores)[videoId]) && vectorStores == old(vectorStores)
      ensures videoId !in old(vectorStores) && fault.Some? ==> r == Throws(fault.value) && vectorStores == old(vectorStores)
      ensures videoId !in old(vectorStores) && fault.None? ==>
                r.Returns? && fresh(r.value) && r.value.namespace == Namespace(videoId)
                && vectorStores == old(vectorStores)[videoId := r.value]
    {
      if videoId in vectorStores {
        return Returns(vectorStores[videoId]);
      }
      if fault.Some? {
        return Throws(fault.value);
      }
      var handle := new StoreHandle(Namespace(videoId));
      vectorStores := vectorStores[videoId := handle];
      r := Returns(handle);
    }

    /** `vectorStoreExists`: true for a cached id; otherwise whether the namespace holds
        vectors, `undefined` (None) for an absent namespace, and false on any error. */
    function VectorStoreExists(videoId: string, fault: Option<string>): (r: Option<bool>)
      reads this
      ensures videoId in vectorStores ==> r == Some(true)
      ensures Truthy(r) <==> videoId in vectorStores || (fault.None? && index.Count(Namespace(videoId)) > 0)
      ensures r == None <==> videoId !in vectorStores && fault.None? && Namespace(videoId) !in index.counts
    {
      if videoId in vectorStores then Some(true)
      else if fault.Some? then Some(false)
      else
        var ns := Namespace(videoId);
        if ns !in index.counts then None else Some(index.counts[ns] > 0)
    }

    /** `similaritySearch`: load the handle, then ask for 2 results from a pool of `2 * k`,
        whatever `k` is. `mmr` is what the library's search settles to. */
    method SimilaritySearch(videoId: string, query: string, k: int, fault: Option<string>,
                            mmr: Remote<seq<Document>>)
      returns (request: Option<MmrRequest>, r: Remote<seq<Document>>)
      requires Valid()
      modifies this
      ensures Valid() && index == old(index)
      ensures r == SearchOutcome(videoId in old(vectorStores), fault, mmr)
      ensures request.Some? <==> videoId in old(vectorStores) || fault.None?
      ensures request.Some? ==> request.value == MmrRequest(Namespace(videoId), query, 2, 2 * k)
      ensures request.Some? ==> videoId in vectorStores && vectorStores.Keys == old(vectorStores).Keys + {videoId}
      ensures request.None? ==> vectorStores == old(vectorStores)
      ensures videoId in vectorStores && videoId !in old(vectorStores) ==> fresh(vectorStores[videoId])
      ensures videoId in old(vectorStores) ==> vectorStores == old(vectorStores)
      ensures forall other :: other in old(vectorStores) ==>
                other in vectorStores && vectorStores[other] == old(vectorStores)[other]
    {
      var handle := LoadVectorStore(videoId, fault);
      match handle
      case Throws(m) =>
        return None, Throws(m);
      case Returns(h) =>
        request := Some(MmrRequest(h.namespace, query, 2, 2 * k));
        r := mmr;
    }

    /** `deleteVectorStore`: evict the id first, then delete the namespace; the eviction
        stands even when the delete throws. */
    method DeleteVectorStore(videoId: string, fault: Option<string>) returns (thrown: Option<string>)
      requires Valid()
      modifies this
      ensures Valid()
      ensures vectorStores == old(vectorStores) - {videoId}
      ensures thrown == fault
      ensures index == if fault.Some? then old(index) else old(index).Drop(Namespace(videoId))
    {
      vectorStores := vectorStores - {videoId};
      if fault.Some? {
        return fault;
      }
      index := index.Drop(Namespace(videoId));
      thrown := None;
    }

    /** `getProcessedVideos`: the ids whose namespace holds vectors; `[]` on any error. */
    function GetProcessedVideos(fault: Option<string>): (ids: seq<string>)
      reads this
      requires Valid()
      ensures fault.Some? ==> ids == []
      ensures fault.None? ==> forall s :: s in ids <==> Namespace(s) in index.counts && index.counts[Namespace(s)] > 0
    {
      if fault.Some? then []
      else
        ProcessedVideoIdsMembership(index.order, index.counts);
        ProcessedVideoIds(index.order, index.counts)
    }

    /** `getStorageStats`: the listing (whose own errors give `[]`) and the cache size;
        a failure of the second describe call zeroes every field. */
    function GetStorageStats(listFault: Option<string>, statsFault: Option<string>): (s: StorageStats)
      reads this
      requires Valid()
      ensures statsFault.Some? ==> s == StorageStats(0, 0, [], 0, 0)
      ensures statsFault.None? ==> s.processedVideos == |s.videoIds| && s.memoryCacheSize == |vectorStores|
                                   && s.videoIds == GetProcessedVideos(listFault)
                                   && s.indexDimension == index.dimension
                                   && s.totalVectors == TotalVectors(index.order, index.counts)
    {
      if statsFault.Some? then StorageStats(0, 0, [], 0, 0)
      else
        var ids := GetProcessedVideos(listFault);
        StorageStats(|ids|, |vectorStores|, ids, TotalVectors(index.order, index.counts), index.dimension)
    }

    /** `clearMemoryCache`. */
    method ClearMemoryCache()
      requires Valid()
      modifies this
      ensures Valid() && vectorStores == map[] && index == old(index)
    {
      vectorStores := map[];
    }
  }

  /** What `similaritySearch` settles to: the search's own outcome once a handle is
      available, the load's error otherwise. */
  function SearchOutcome(cached: bool, fault: Option<string>, mmr: Remote<seq<Document>>): (r: Remote<seq<Document>>)
    ensures r.Returns? <==> (cached || fault.None?) && mmr.Returns?
    ensures r.Returns? ==> r == mmr
    ensures r.Throws? ==> r.message == if cached || fault.None? then mmr.message else fault.value
  {
    if !cached && fault.Some? then Throws(fault.value) else mmr
  }
}
