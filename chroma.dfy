/**
 * The post-processing around the persistent vector collection (core/chroma_store.py): turning a
 * query response into matches, building the record `add_memory` stores, and the defaults of
 * `upsert` and `get_stats`. The collection itself, the hash and the clock are outside the model:
 * their results come in as parameters.
 */
module Chroma {
  import opened Options
  import opened Strings

  datatype MetaValue = Number(x: real) | Text(s: string) | Count(n: int)

  type Metadata = map<string, MetaValue>

  /** One entry of `query`'s result. */
  datatype Match = Match(id: string, document: string, distance: real, metadata: Metadata)

  /** What the collection answers to a query: each field holds one list per query embedding, or is
      absent (`None` covers both a missing key and a null value). */
  datatype QueryResponse = QueryResponse(
    ids: Option<seq<seq<string>>>,
    documents: Option<seq<seq<string>>>,
    distances: Option<seq<seq<real>>>,
    metadatas: Option<seq<seq<Metadata>>>)

  /** `res.get(key, [[]])[0] if res.get(key) else []`: the list for the first query embedding. */
  function FirstRow<T>(field: Option<seq<seq<T>>>): seq<T>
  {
    if field.Some? && |field.value| > 0 then field.value[0] else []
  }

  /** Python's `zip` over the four parallel lists: as long as the shortest. */
  function Zipped(res: QueryResponse): (r: seq<Match>)
    ensures |r| == Min(Min(|FirstRow(res.ids)|, |FirstRow(res.documents)|),
                       Min(|FirstRow(res.distances)|, |FirstRow(res.metadatas)|))
  {
    var ids, docs, dists, metas := FirstRow(res.ids), FirstRow(res.documents),
                                   FirstRow(res.distances), FirstRow(res.metadatas);
    var n := Min(Min(|ids|, |docs|), Min(|dists|, |metas|));
    seq(n, j requires 0 <= j < n => Match(ids[j], docs[j], dists[j], metas[j]))
  }

  predicate Keep(threshold: Option<real>, m: Match)
  {
    threshold.None? || m.distance <= threshold.value
  }

  /** The matches kept by the distance filter, in the backend's order. */
  function Kept(ms: seq<Match>, threshold: Option<real>): seq<Match>
    decreases |ms|
  {
    if |ms| == 0 then []
    else Kept(ms[..|ms| - 1], threshold) + (if Keep(threshold, ms[|ms| - 1]) then [ms[|ms| - 1]] else [])
  }

  /** `query`: any failure of the collection call (`response == None`) gives no matches. */
  method Query(response: Option<QueryResponse>, threshold: Option<real>) returns (docs: seq<Match>)
    ensures response.None? ==> docs == []
    ensures response.Some? ==> docs == Kept(Zipped(response.value), threshold)
  {
    docs := [];
    if response.None? {
      return;
    }
    var res := response.value;
    var ids, texts, dists, metas := FirstRow(res.ids), FirstRow(res.documents),
                                    FirstRow(res.distances), FirstRow(res.metadatas);
    var n := Min(Min(|ids|, |texts|), Min(|dists|, |metas|));
    ghost var zipped := Zipped(res);
    for i := 0 to n
      invariant docs == Kept(zipped[..i], threshold)
    {
      if threshold.None? || dists[i] <= threshold.value {
        docs := docs + [Match(ids[i], texts[i], dists[i], metas[i])];
      }
      assert zipped[..i + 1][..i] == zipped[..i];
    }
    assert zipped[..n] == zipped;
  }

  /** A match is kept exactly when it is in the response and passes the threshold (inclusive). */
  lemma {:induction false} KeptMembers(ms: seq<Match>, threshold: Option<real>, m: Match)
    ensures m in Kept(ms, threshold) <==> m in ms && Keep(threshold, m)
    decreases |ms|
  {
    if |ms| > 0 {
      KeptMembers(ms[..|ms| - 1], threshold, m);
      assert ms == ms[..|ms| - 1] + [ms[|ms| - 1]];
    }
  }

  /** Without a threshold every zipped match is returned. */
  lemma {:induction false} KeptWithoutThreshold(ms: seq<Match>)
    ensures Kept(ms, None) == ms
    decreases |ms|
  {
    if |ms| > 0 {
      KeptWithoutThreshold(ms[..|ms| - 1]);
    }
  }

  /** Filtering keeps the backend's order: it distributes over concatenation. */
  lemma {:induction false} KeptAppend(a: seq<Match>, b: seq<Match>, threshold: Option<real>)
    ensures Kept(a + b, threshold) == Kept(a, threshold) + Kept(b, threshold)
    decreases |b|
  {
    if |b| > 0 {
      assert (a + b)[..|a + b| - 1] == a + b[..|b| - 1];
      KeptAppend(a, b[..|b| - 1], threshold);
    } else {
      assert a + b == a;
    }
  }

  lemma {:induction false} KeptShorter(ms: seq<Match>, threshold: Option<real>)
    ensures |Kept(ms, threshold)| <= |ms|
    decreases |ms|
  {
    if |ms| > 0 {
      KeptShorter(ms[..|ms| - 1], threshold);
    }
  }

  /** The result is never longer than the shortest of the four parallel lists. */
  lemma QueryBound(res: QueryResponse, threshold: Option<real>)
    ensures |Kept(Zipped(res), threshold)| <= |FirstRow(res.ids)| && |Kept(Zipped(res), threshold)| <= |FirstRow(res.documents)|
    ensures |Kept(Zipped(res), threshold)| <= |FirstRow(res.distances)| && |Kept(Zipped(res), threshold)| <= |FirstRow(res.metadatas)|
  {
    KeptShorter(Zipped(res), threshold);
  }

  /** What `upsert` hands to the collection. */
  datatype Record = Record(id: string, document: string, embedding: seq<real>, metadata: Metadata)

  /** `metadatas or [{} for _ in documents]`: also an empty list is replaced. */
  function UpsertMetadatas(documents: seq<string>, metadatas: Option<seq<Metadata>>): (r: seq<Metadata>)
    ensures metadatas.Some? && metadatas.value != [] ==> r == metadatas.value
    ensures metadatas.None? || metadatas.value == [] ==>
              |r| == |documents| && forall j :: 0 <= j < |r| ==> r[j] == map[]
  {
    if metadatas.Some? && metadatas.value != [] then metadatas.value
    else seq(|documents|, _ => map[])
  }

  /** The id `add_memory` builds: `mem_{source}_{first 8 hex digits}_{int(ts)}`. */
  function MemoryId(source: string, hexDigest: string, clock: real): string
  {
    "mem_" + source + "_" + hexDigest[..Min(8, |hexDigest|)] + "_" + IntToString(Trunc(clock))
  }

  /** `add_memory`: the caller's metadata (or `{}`) is updated in place with `timestamp`, `source`
      and `length`, which override caller keys of the same names. `hexDigest` stands for the sha256
      hex digest of the document followed by the clock reading. */
  method AddMemory(document: string, embedding: seq<real>, source: string,
                   metadata: Option<Metadata>, clock: real, hexDigest: string)
    returns (id: string, record: Record)
    ensures record.id == id && record.document == document && record.embedding == embedding
    ensures id == MemoryId(source, hexDigest, clock)
    ensures var given := metadata.GetOr(map[]);
      && record.metadata.Keys == given.Keys + {"timestamp", "source", "length"}
      && record.metadata["timestamp"] == Number(clock)
      && record.metadata["source"] == Text(source)
      && record.metadata["length"] == Count(|document|)
      && forall k :: k in given && k !in {"timestamp", "source", "length"} ==> record.metadata[k] == given[k]
  {
    var md := if metadata.None? then map[] else metadata.value;
    var ts := clock;
    var docHash := hexDigest[..Min(8, |hexDigest|)];
    id := "mem_" + source + "_" + docHash + "_" + IntToString(Trunc(ts));
    md := md["timestamp" := Number(ts)]["source" := Text(source)]["length" := Count(|document|)];
    record := Record(id, document, embedding, md);
  }

  /** The id produced at a non-negative clock reading ends with the reading's whole seconds. */
  lemma MemoryIdClock(source: string, hexDigest: string, clock: real)
    requires clock >= 0.0
    ensures var id := MemoryId(source, hexDigest, clock);
      var digits := NatToString(clock.Floor);
      id == "mem_" + source + "_" + hexDigest[..Min(8, |hexDigest|)] + "_" + digits
      && DigitsValue(digits) == clock.Floor
  {
    NatToStringValue(clock.Floor);
  }

  datatype Stats = Stats(collection: string, totalDocuments: nat, persistDirectory: string)

  /** `get_stats`: `None` (the `{}` of the source) when counting the collection fails. */
  function GetStats(collectionName: string, persistDir: string, count: Option<nat>): (r: Option<Stats>)
    ensures count.None? <==> r.None?
    ensures r.Some? ==> r.value.totalDocuments == count.value
  {
    if count.None? then None else Some(Stats(collectionName, count.value, persistDir))
  }

  /** `get_stats().get("total_documents", 0)` */
  function TotalDocuments(stats: Option<Stats>): nat
  {
    if stats.Some? then stats.value.totalDocuments else 0
  }
}
