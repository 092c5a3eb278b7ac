/**
 * The two-tier memory (core/memory_system.py): a bounded short-term buffer whose oldest entry
 * spills into a FIFO consolidation queue, a consolidation step that summarises one queued item
 * into the long-term store, retrieval from that store, and the linear-scan store itself.
 * The summariser, the sentence encoder and the persistent collection are outside the model:
 * their answers come in as parameters.
 */
module Memory {
  import opened Options
  import opened Strings
  import VectorSearch
  import Chroma
  import Neural

  const StmBufferSize: nat := 10
  /** Defaults of `search` (`top_k=2, threshold=0.5`) and of `retrieve_relevant` (`top_k=4`). */
  const SearchTopK: nat := 2
  const SearchThreshold: real := 0.5
  const RetrieveTopK: nat := 4
  /** The linear-scan store writes its file on every fifth insertion. */
  const SaveEvery: nat := 5

  // ---------------------------------------------------------------------------------------
  // The buffer and the queue as values

  /** The short-term buffer and the consolidation queue, each oldest first. */
  datatype ShortTerm = ShortTerm(buffer: seq<string>, queue: seq<string>)
  {
    /** Everything not yet consolidated, in chronological order: the queue, then the buffer. */
    function Log(): seq<string> { queue + buffer }
  }

  /** `f"{role}: {content}"` */
  function Entry(role: string, content: string): string
  {
    role + ": " + content
  }

  /** `add_to_buffer`: append, and move the oldest buffer entry to the queue when over capacity. */
  function Push(st: ShortTerm, entry: string, cap: nat): (r: ShortTerm)
    ensures 1 <= cap ==> |r.buffer| >= 1 && r.buffer[|r.buffer| - 1] == entry
  {
    var b := st.buffer + [entry];
    if |b| > cap then ShortTerm(b[1..], st.queue + [b[0]]) else ShortTerm(b, st.queue)
  }

  lemma PushKeepsOrder(st: ShortTerm, entry: string, cap: nat)
    requires 1 <= cap && |st.buffer| <= cap
    ensures |Push(st, entry, cap).buffer| <= cap
    ensures Push(st, entry, cap).Log() == st.Log() + [entry]
    ensures |st.buffer| < cap ==> Push(st, entry, cap) == ShortTerm(st.buffer + [entry], st.queue)
    ensures |st.buffer| == cap ==>
              Push(st, entry, cap) == ShortTerm(st.buffer[1..] + [entry], st.queue + [st.buffer[0]])
  {
    if |st.buffer| == cap {
      assert (st.buffer + [entry])[1..] == st.buffer[1..] + [entry];
      assert st.queue + [st.buffer[0]] + (st.buffer[1..] + [entry]) == st.queue + st.buffer + [entry];
    }
  }

  /** A sequence of `add_to_buffer` calls. */
  function PushAll(st: ShortTerm, entries: seq<string>, cap: nat): ShortTerm
    decreases |entries|
  {
    if |entries| == 0 then st
    else Push(PushAll(st, entries[..|entries| - 1], cap), entries[|entries| - 1], cap)
  }

  /** How many of the first `n` entries have spilled into the queue. */
  function Spilled(n: nat, cap: nat): nat
  {
    if n > cap then n - cap else 0
  }

  /** One more push keeps the buffer holding the newest entries and the queue the older ones. */
  lemma PushSpills(st: ShortTerm, entries: seq<string>, cap: nat)
    requires cap >= 1 && |entries| > 0
    requires var init := entries[..|entries| - 1];
      st.queue == init[..Spilled(|init|, cap)] && st.buffer == init[Spilled(|init|, cap)..]
    ensures var r := Push(st, entries[|entries| - 1], cap);
      r.queue == entries[..Spilled(|entries|, cap)] && r.buffer == entries[Spilled(|entries|, cap)..]
  {
    var init := entries[..|entries| - 1];
    var k := Spilled(|init|, cap);
    assert st.buffer + [entries[|entries| - 1]] == entries[k..];
    if |init| >= cap {
      assert entries[..k] + [entries[k]] == entries[..k + 1];
    }
  }

  /** From empty, the buffer holds the last `cap` entries and the queue all earlier ones, in order. */
  lemma {:induction false} PushAllFromEmpty(entries: seq<string>, cap: nat)
    requires cap >= 1
    ensures var st := PushAll(ShortTerm([], []), entries, cap);
      st.queue == entries[..Spilled(|entries|, cap)] && st.buffer == entries[Spilled(|entries|, cap)..]
    decreases |entries|
  {
    if |entries| > 0 {
      var init := entries[..|entries| - 1];
      PushAllFromEmpty(init, cap);
      PushSpills(PushAll(ShortTerm([], []), init, cap), entries, cap);
    }
  }

  /** Capacity 10 and eleven appends: ten in the buffer, one in the queue, and it is the first. */
  lemma ElevenAppends(entries: seq<string>)
    requires |entries| == 11
    ensures var st := PushAll(ShortTerm([], []), entries, StmBufferSize);
      |st.buffer| == 10 && |st.queue| == 1 && st.queue[0] == entries[0]
  {
    PushAllFromEmpty(entries, StmBufferSize);
  }

  /** `queue.pop(0)` when the queue is non-empty. */
  function PopFront(st: ShortTerm): ShortTerm
  {
    if st.queue == [] then st else ShortTerm(st.buffer, st.queue[1..])
  }

  /** `buffer[-1] = entry` */
  function ReplaceLast(st: ShortTerm, entry: string): (r: ShortTerm)
    requires st.buffer != []
    ensures r.queue == st.queue && |r.buffer| == |st.buffer|
    ensures r.Log() == st.Log()[..|st.Log()| - 1] + [entry]
  {
    var r := ShortTerm(st.buffer[..|st.buffer| - 1] + [entry], st.queue);
    assert st.Log()[..|st.Log()| - 1] == st.queue + st.buffer[..|st.buffer| - 1];
    r
  }

  predicate NoNewlines(turns: seq<string>)
  {
    forall i :: 0 <= i < |turns| ==> '\n' !in turns[i]
  }

  // ---------------------------------------------------------------------------------------
  // The linear-scan store

  ghost predicate IsZero(v: seq<real>)
  {
    forall i :: 0 <= i < |v| ==> v[i] == 0.0
  }

  /** The texts at the given indices, in that order. */
  function Pick(texts: seq<string>, sel: seq<nat>): (r: seq<string>)
    requires forall j :: 0 <= j < |sel| ==> sel[j] < |texts|
    ensures |r| == |sel| && forall j :: 0 <= j < |r| ==> r[j] == texts[sel[j]]
  {
    if |sel| == 0 then [] else [texts[sel[0]]] + Pick(texts, sel[1..])
  }

  class NumpyVectorDB {
    var texts: seq<string>
    var vectors: seq<seq<real>>
    /** The texts and vectors as of the last successful write of the store's file. */
    var savedTexts: seq<string>
    var savedVectors: seq<seq<real>>

    ghost predicate Valid()
      reads this
    {
      |texts| == |vectors|
    }

    /** While every write succeeds, the file holds a prefix of the texts, a whole number of batches
        of five, at most four behind. */
    ghost predicate Durable()
      reads this
    {
      savedTexts <= texts && |savedTexts| % SaveEvery == 0 && |texts| - |savedTexts| < SaveEvery
    }

    constructor ()
      ensures Valid() && Durable()
      ensures texts == [] && vectors == [] && savedTexts == [] && savedVectors == []
    {
      texts, vectors := [], [];
      savedTexts, savedVectors := [], [];
    }

    /** `add`; `writeOk` says whether writing the file would succeed. A failed write raises after the
        text has been appended. */
    method Add(text: string, vector: seq<real>, writeOk: bool) returns (raised: bool)
      requires Valid()
      modifies this
      ensures Valid()
      ensures texts == old(texts) + [text] && vectors == old(vectors) + [vector]
      ensures raised <==> |texts| % SaveEvery == 0 && !writeOk
      ensures |texts| % SaveEvery == 0 && writeOk ==> savedTexts == texts && savedVectors == vectors
      ensures !(|texts| % SaveEvery == 0 && writeOk) ==>
                savedTexts == old(savedTexts) && savedVectors == old(savedVectors)
      ensures old(Durable()) && writeOk ==> Durable()
    {
      texts := texts + [text];
      vectors := vectors + [vector];
      raised := false;
      if |texts| % SaveEvery == 0 {
        if writeOk {
          savedTexts, savedVectors := texts, vectors;
        } else {
          raised := true;
        }
      }
    }

    /** The indices whose texts `search` returns, given each stored vector's similarity to the query. */
    function SearchIndices(sims: seq<real>, query: seq<real>, topK: nat, threshold: real): (sel: seq<nat>)
      reads this
      requires Valid() && |sims| == |vectors|
      ensures |vectors| == 0 || |texts| == 0 || IsZero(query) ==> sel == []
      ensures |sel| <= topK
      ensures forall j :: 0 <= j < |sel| ==> sel[j] < |texts|
      ensures VectorSearch.Descending(sel, sims)
      ensures forall j :: 0 <= j < |sel| ==> sims[sel[j]] > threshold
    {
      if |vectors| == 0 || |texts| == 0 then []
      else if forall i :: 0 <= i < |query| ==> query[i] == 0.0 then []
      else
        VectorSearch.SelectSound(sims, threshold, topK);
        VectorSearch.Select(sims, threshold, topK)
    }

    /** `search`: the texts at `SearchIndices`, best first. */
    function Search(sims: seq<real>, query: seq<real>, topK: nat, threshold: real): (r: seq<string>)
      reads this
      requires Valid() && |sims| == |vectors|
      ensures var sel := SearchIndices(sims, query, topK, threshold);
        |r| == |sel| && forall j :: 0 <= j < |r| ==> r[j] == texts[sel[j]]
    {
      Pick(texts, SearchIndices(sims, query, topK, threshold))
    }
  }

  // ---------------------------------------------------------------------------------------
  // The context manager

  /** What the outside world answers during one `process_queue`: the summariser's reply (`None`:
      the model call failed), the encoder's vector (`None`: encoding raised), the clock and the hash
      digest used for the record id, and whether the store's write succeeds. */
  datatype Consolidation = Consolidation(reply: Option<string>, embedding: Option<seq<real>>,
                                         clock: real, hexDigest: string, writeOk: bool)

  /** What the outside world answers during one `retrieve_relevant`: the query vector (`None`:
      encoding raised), the similarity of each stored vector, and the collection's response
      (`None`: the query raised). */
  datatype Retrieval = Retrieval(embedding: Option<seq<real>>, sims: seq<real>,
                                 response: Option<Chroma.QueryResponse>)

  datatype MemoryStats = MemoryStats(backend: string, bufferSize: nat, queueSize: nat,
                                     consolidated: nat, retrieved: nat, ltmTotal: Option<nat>)

  /** The request `compress_text` sends to `net` about the front of the queue `q`, if it has one. */
  function SummaryRequest(net: Neural.DynamicNeuralNetwork, q: seq<string>): Option<Neural.ChatRequest>
  {
    if q == [] then None else Some(net.Request(Neural.CompressPrompt(q[0]), Neural.SummarizerPrompt, true, false))
  }

  /** Whether a consolidation with these answers gets as far as counting a success. */
  predicate Consolidates(c: Consolidation, usingChroma: bool, storedBefore: nat)
  {
    c.embedding.Some? &&
    if usingChroma then c.writeOk else (storedBefore + 1) % SaveEvery != 0 || c.writeOk
  }

  /** The documents of the collection's matches within the distance threshold. */
  function ChromaDocuments(response: Option<Chroma.QueryResponse>, threshold: real): seq<string>
  {
    if response.None? then []
    else
      var ms := Chroma.Kept(Chroma.Zipped(response.value), Some(threshold));
      seq(|ms|, j requires 0 <= j < |ms| => ms[j].document)
  }

  class ContextManager {
    var buffer: seq<string>
    var queue: seq<string>
    const maxBuffer: nat
    /** The linear-scan store, or null when the persistent collection is in use. */
    const db: NumpyVectorDB?
    /** `retrieval_threshold`, which the settings file does not define. */
    const retrievalThreshold: real
    var consolidatedCount: nat
    var retrievedCount: nat

    ghost predicate Valid()
      reads this, db
    {
      1 <= maxBuffer && |buffer| <= maxBuffer && (db != null ==> db.Valid())
    }

    function Contents(): ShortTerm
      reads this
    {
      ShortTerm(buffer, queue)
    }

    /** What the linear-scan store holds; nothing when the collection is in use. */
    function StoredTexts(): seq<string>
      reads db
    {
      if db == null then [] else db.texts
    }

    function StoredVectors(): seq<seq<real>>
      reads db
    {
      if db == null then [] else db.vectors
    }

    /** The counter and the linear-scan store after `process_queue` ran on the queue `q`, given the
        counter and the store as they were: a popped item is stored when it is encoded, and counted
        when it also gets through the write. */
    ghost predicate Processed(q: seq<string>, count: nat, texts: seq<string>, vectors: seq<seq<real>>,
                              c: Consolidation)
      reads this, db
    {
      && consolidatedCount == count + (if q != [] && Consolidates(c, db == null, |texts|) then 1 else 0)
      && (db != null ==>
            if q != [] && c.embedding.Some?
            then db.texts == texts + [Neural.ForwardText(c.reply)] && db.vectors == vectors + [c.embedding.value]
            else db.texts == texts && db.vectors == vectors)
    }

    /** The collection is used when it is asked for, importable, and opens without error. */
    constructor (useChroma: bool, hasChroma: bool, chromaOpens: bool, retrievalThreshold: real)
      ensures Valid()
      ensures buffer == [] && queue == [] && maxBuffer == StmBufferSize
      ensures consolidatedCount == 0 && retrievedCount == 0
      ensures this.retrievalThreshold == retrievalThreshold
      ensures db == null <==> useChroma && hasChroma && chromaOpens
      ensures db != null ==> fresh(db) && db.texts == [] && db.Durable()
    {
      buffer, queue := [], [];
      maxBuffer := StmBufferSize;
      this.retrievalThreshold := retrievalThreshold;
      if useChroma && hasChroma && chromaOpens {
        db := null;
      } else {
        db := new NumpyVectorDB();
      }
      consolidatedCount, retrievedCount := 0, 0;
    }

    function Backend(): (name: string)
      reads this
      ensures name == "chroma" <==> db == null
    {
      if db == null then "chroma" else "numpy"
    }

    method AddToBuffer(role: string, content: string)
      requires Valid()
      modifies this`buffer, this`queue
      ensures Valid()
      ensures Contents() == Push(old(Contents()), Entry(role, content), maxBuffer)
    {
      buffer := buffer + [Entry(role, content)];
      if |buffer| > maxBuffer {
        queue := queue + [buffer[0]];
        buffer := buffer[1..];
      }
    }

    /** `buffer[-1] = entry`, which the chat endpoint does to record the text it collected. */
    method ReplaceNewest(entry: string)
      requires Valid() && buffer != []
      modifies this`buffer
      ensures Valid()
      ensures Contents() == ReplaceLast(old(Contents()), entry)
    {
      buffer := buffer[..|buffer| - 1] + [entry];
    }

    /** `get_recent_context`: the last `numTurns` entries, one per line; when no entry holds a line
        break, splitting the result at line breaks gives those entries back. */
    function GetRecentContext(numTurns: int): (r: string)
      reads this
      ensures NoNewlines(buffer) && PyTail(buffer, numTurns) != [] ==>
                Split(r, '\n') == PyTail(buffer, numTurns)
    {
      var turns := PyTail(buffer, numTurns);
      if NoNewlines(buffer) && turns != [] then
        assert forall i :: 0 <= i < |turns| ==> turns[i] == buffer[|buffer| - |turns| + i];
        SplitJoin(turns, '\n');
        Join("\n", turns)
      else
        Join("\n", turns)
    }

    /** `process_queue`: pop the front item, whatever happens next, and count it only when it is
        summarised, encoded and stored without error. Returns the popped item, the request
        `compress_text` sends to `net` about it (which `c.reply` answers) and, for the collection,
        the record offered to `upsert`. */
    method ProcessQueue(net: Neural.DynamicNeuralNetwork, c: Consolidation)
      returns (item: Option<string>, summarize: Option<Neural.ChatRequest>, record: Option<Chroma.Record>)
      requires Valid()
      modifies this`queue, this`consolidatedCount, db
      ensures Valid()
      ensures buffer == old(buffer) && retrievedCount == old(retrievedCount)
      ensures old(queue) == [] ==> item == None && summarize == None && queue == [] && record == None
      ensures old(queue) != [] ==>
                summarize == Some(net.Request(Neural.CompressPrompt(old(queue)[0]), Neural.SummarizerPrompt, true, false))
      ensures old(queue) == [] && db != null ==> unchanged(db)
      ensures old(queue) != [] ==> item == Some(old(queue)[0]) && queue == old(queue)[1..]
      ensures Contents() == PopFront(old(Contents()))
      ensures consolidatedCount == old(consolidatedCount) +
                (if old(queue) != [] && Consolidates(c, db == null, old(if db == null then 0 else |db.texts|))
                 then 1 else 0)
      ensures db != null ==> record == None
      ensures db != null && old(queue) != [] && c.embedding.Some? ==>
                db.texts == old(db.texts) + [Neural.ForwardText(c.reply)]
      ensures db != null && (old(queue) == [] || c.embedding.None?) ==> db.texts == old(db.texts)
      ensures db == null ==> (record.Some? <==> old(queue) != [] && c.embedding.Some?)
      ensures Processed(old(queue), old(consolidatedCount), old(StoredTexts()), old(StoredVectors()), c)
      ensures record.Some? ==>
                && record.value.document == Neural.ForwardText(c.reply)
                && record.value.id == Chroma.MemoryId("consolidation", c.hexDigest, c.clock)
                && "source" in record.value.metadata
                && record.value.metadata["source"] == Chroma.Text("consolidation")
    {
      item, summarize, record := None, None, None;
      if queue == [] {
        return;
      }
      var text := queue[0];
      queue := queue[1..];
      item := Some(text);
      // compress_text(text): the summariser's reply to this request, or "..." when the call fails
      summarize := Some(net.Request(Neural.CompressPrompt(text), Neural.SummarizerPrompt, true, false));
      var summary := Neural.ForwardText(c.reply);
      if c.embedding.None? {
        return;
      }
      var vector := c.embedding.value;
      if db == null {
        var id, rec := Chroma.AddMemory(summary, vector, "consolidation", None, c.clock, c.hexDigest);
        record := Some(rec);
        if !c.writeOk {
          return;
        }
      } else {
        var raised := db.Add(summary, vector, c.writeOk);
        if raised {
          return;
        }
      }
      consolidatedCount := consolidatedCount + 1;
    }

    /** What `retrieve_relevant` returns for these answers: nothing when encoding fails, otherwise
        the linear scan's best matches or the collection's matches within the distance threshold. */
    function Relevant(topK: nat, r: Retrieval): (docs: seq<string>)
      reads db
      requires db != null ==> db.Valid()
      requires db != null && r.embedding.Some? ==> |r.sims| == |db.vectors|
      ensures r.embedding.None? ==> docs == []
      ensures db != null ==> |docs| <= topK
    {
      if r.embedding.None? then []
      else if db == null then ChromaDocuments(r.response, retrievalThreshold)
      else db.Search(r.sims, r.embedding.value, topK, SearchThreshold)
    }

    /** `retrieve_relevant`: never fails; counts what it returns. */
    method RetrieveRelevant(topK: nat, r: Retrieval) returns (docs: seq<string>)
      requires Valid()
      requires db != null && r.embedding.Some? ==> |r.sims| == |db.vectors|
      modifies this`retrievedCount
      ensures retrievedCount == old(retrievedCount) + |docs|
      ensures docs == Relevant(topK, r)
      ensures r.embedding.None? ==> docs == []
      ensures r.embedding.Some? && db != null ==>
                docs == db.Search(r.sims, r.embedding.value, topK, SearchThreshold)
      ensures r.embedding.Some? && db == null ==> docs == ChromaDocuments(r.response, retrievalThreshold)
      ensures db != null ==> |docs| <= topK
    {
      if r.embedding.None? {
        return [];
      }
      if db == null {
        var results := Chroma.Query(r.response, Some(retrievalThreshold));
        docs := seq(|results|, j requires 0 <= j < |results| => results[j].document);
      } else {
        docs := db.Search(r.sims, r.embedding.value, topK, SearchThreshold);
      }
      retrievedCount := retrievedCount + |docs|;
    }

    /** `get_memory_stats`; `ltm` is what the collection's `get_stats` returned. */
    function GetMemoryStats(ltm: Option<Chroma.Stats>): (s: MemoryStats)
      reads this, db
      requires Valid()
      ensures s.backend == Backend() && s.bufferSize <= maxBuffer
      ensures s.ltmTotal.Some? <==> db == null
      ensures db == null && ltm.None? ==> s.ltmTotal == Some(0)
    {
      MemoryStats(Backend(), |buffer|, |queue|, consolidatedCount, retrievedCount,
                  if db == null then Some(Chroma.TotalDocuments(ltm)) else None)
    }
  }
}
