/**
 * The inference engine (core/inference_loop.py): one streamed chat turn and one dream.
 * A stream is modelled by the contents of its chunks (`None`: the model call failed), and an
 * interrupt check by its answer before each chunk.
 */
module Inference {
  import opened Options
  import opened Strings
  import Hormones
  import opened Memory
  import opened Profile
  import opened Neural

  const InterruptedMarker := "[Interrupted]"
  const Apology := "Sorry, I encountered an error."
  const DreamSystemPrompt := "You are dreaming. Be creative."
  /** Below this stress the dream is pleasant. */
  const DreamStressLimit: real := 0.5

  // ---------------------------------------------------------------------------------------
  // Streams

  /** The index of the first `true`, or the length when there is none. */
  function FirstTrue(flags: seq<bool>): (k: nat)
    ensures k <= |flags|
    ensures forall i :: 0 <= i < k ==> !flags[i]
    ensures k < |flags| ==> flags[k]
    decreases |flags|
  {
    if |flags| == 0 then 0 else if flags[0] then 0 else 1 + FirstTrue(flags[1..])
  }

  /** Those three facts fix the index. */
  lemma {:induction false} FirstTrueUnique(flags: seq<bool>, k: nat)
    requires k <= |flags| && (forall i :: 0 <= i < k ==> !flags[i]) && (k < |flags| ==> flags[k])
    ensures FirstTrue(flags) == k
    decreases k
  {
    if k > 0 {
      assert !flags[0];
      FirstTrueUnique(flags[1..], k - 1);
    }
  }

  /** Which tokens are the interruption marker. */
  function MarkerFlags(tokens: seq<string>): (r: seq<bool>)
    ensures |r| == |tokens| && forall i :: 0 <= i < |r| ==> (r[i] <==> tokens[i] == InterruptedMarker)
  {
    seq(|tokens|, i requires 0 <= i < |tokens| => tokens[i] == InterruptedMarker)
  }

  /** The tokens `run_chat` yields while it streams: every chunk up to the first positive interrupt
      check, and then the marker. */
  function Yields(chunks: seq<string>, flags: seq<bool>): seq<string>
    requires |flags| == |chunks|
  {
    var k := FirstTrue(flags);
    if k == |chunks| then chunks else chunks[..k] + [InterruptedMarker]
  }

  /** The streaming loop of `run_chat`: `finished` says whether it ran to the end of the stream. */
  method StreamReply(chunks: seq<string>, flags: seq<bool>)
    returns (yielded: seq<string>, fullResponse: string, finished: bool)
    requires |flags| == |chunks|
    ensures yielded == Yields(chunks, flags)
    ensures fullResponse == Concat(chunks[..FirstTrue(flags)])
    ensures finished <==> FirstTrue(flags) == |chunks|
  {
    yielded, fullResponse, finished := [], "", true;
    var i := 0;
    while i < |chunks|
      invariant 0 <= i <= |chunks| && i <= FirstTrue(flags)
      invariant yielded == chunks[..i] && fullResponse == Concat(chunks[..i])
    {
      if flags[i] {
        yielded := yielded + [InterruptedMarker];
        finished := false;
        return;
      }
      assert chunks[..i + 1][..i] == chunks[..i];
      fullResponse := fullResponse + chunks[i];
      yielded := yielded + [chunks[i]];
      i := i + 1;
    }
    assert chunks[..i] == chunks;
  }

  /** The consumer loop of the chat endpoint: collect tokens up to the first marker. */
  method CollectTokens(tokens: seq<string>) returns (collected: string, stopped: bool)
    ensures var m := FirstTrue(MarkerFlags(tokens));
      collected == Concat(tokens[..m]) && (stopped <==> m < |tokens|)
  {
    ghost var flags := MarkerFlags(tokens);
    collected, stopped := "", false;
    var i := 0;
    while i < |tokens|
      invariant 0 <= i <= |tokens| && i <= FirstTrue(flags)
      invariant collected == Concat(tokens[..i])
    {
      if tokens[i] == InterruptedMarker {
        stopped := true;
        return;
      }
      assert tokens[..i + 1][..i] == tokens[..i];
      collected := collected + tokens[i];
      i := i + 1;
    }
  }

  /** When no chunk is itself the marker, the consumer stops exactly where the generator was
      interrupted and collects exactly the generator's full response. */
  lemma ConsumerSeesReply(chunks: seq<string>, flags: seq<bool>)
    requires |flags| == |chunks|
    requires forall i :: 0 <= i < |chunks| ==> chunks[i] != InterruptedMarker
    ensures var y := Yields(chunks, flags); var k := FirstTrue(flags);
      FirstTrue(MarkerFlags(y)) == k && y[..k] == chunks[..k]
  {
    var y := Yields(chunks, flags);
    var k := FirstTrue(flags);
    var mf := MarkerFlags(y);
    forall i | 0 <= i < k ensures !mf[i] {
      assert y[i] == chunks[i];
    }
    FirstTrueUnique(mf, k);
  }

  /** Whether the reply is recorded after the stream. A consumer that reads on past the marker
      lets the generator leave its loop and record what it streamed so far; one that stops at the
      marker closes the generator there, so the reply is recorded only when no interrupt check
      fired and no chunk was itself the marker. */
  predicate ReplyRecorded(stream: Option<seq<string>>, flags: seq<bool>, stopsAtMarker: bool)
  {
    && stream.Some?
    && (stopsAtMarker ==> FirstTrue(flags) >= |stream.value| && InterruptedMarker !in stream.value)
  }

  // ---------------------------------------------------------------------------------------
  // Prompts

  function MemoryLines(docs: seq<string>): (lines: seq<string>)
    ensures |lines| == |docs| && forall i :: 0 <= i < |docs| ==> lines[i] == "[Memory] " + docs[i]
  {
    seq(|docs|, i requires 0 <= i < |docs| => "[Memory] " + docs[i])
  }

  /** `f"{sys_prompt}\n{core_identity}\nCONTEXT:\n{context_str}"` */
  function FullSystemPrompt(sys: string, core: string, docs: seq<string>): string
  {
    sys + "\n" + core + "\nCONTEXT:\n" + Join("\n", MemoryLines(docs))
  }

  /** The full prompt starts with the hormone-driven prompt, quotes the profile's core prompt and
      every retrieved memory. */
  lemma FullSystemPromptShows(sys: string, core: string, docs: seq<string>, k: nat)
    ensures sys <= FullSystemPrompt(sys, core, docs)
    ensures docs == [] ==> FullSystemPrompt(sys, core, docs) == sys + "\n" + core + "\nCONTEXT:\n"
    ensures k < |docs| ==> Contains(FullSystemPrompt(sys, core, docs), "[Memory] " + docs[k])
    ensures Contains(FullSystemPrompt(sys, core, docs), core)
  {
    var head := sys + "\n" + core + "\nCONTEXT:\n";
    var body := Join("\n", MemoryLines(docs));
    assert FullSystemPrompt(sys, core, docs) == head + body;
    assert FullSystemPrompt(sys, core, docs) == sys + ("\n" + core + "\nCONTEXT:\n" + body);
    assert (head + body)[|sys| + 1..|sys| + 1 + |core|] == core;
    ContainsAt(head + body, core, |sys| + 1);
    if k < |docs| {
      var i := JoinPart("\n", MemoryLines(docs), k);
      var line := "[Memory] " + docs[k];
      assert (head + body)[|head| + i..|head| + i + |line|] == body[i..i + |line|];
      ContainsAt(head + body, line, |head| + i);
    }
  }

  function DreamTopic(stress: real): (topic: string)
    ensures topic == "a futuristic city" <==> stress < DreamStressLimit
  {
    if stress < DreamStressLimit then "a futuristic city" else "handling a difficult error"
  }

  function DreamPrompt(topic: string): string
  {
    "Describe a scene about " + topic + "."
  }

  /** The queued text of a finished dream. */
  function DreamText(topic: string, dream: string): (text: string)
    ensures "Dream (" <= text && |text| == |topic| + |dream| + 10
    ensures text[7..7 + |topic|] == topic && text[7 + |topic|..10 + |topic|] == "): "
    ensures text[|text| - |dream|..] == dream
  {
    "Dream (" + topic + "): " + dream
  }

  /** How a dream ends: the model call failed and iterating over the missing stream raises, the
      interrupt check fired, or the dream was queued for consolidation. */
  datatype DreamOutcome = StreamMissing | DreamInterrupted | Dreamt(text: string)

  /** The profile once the extracted name, if any, is adopted. */
  function Named(p: ProfileData, e: Extracted): (r: ProfileData)
    ensures r.facts == p.facts && r.extras == p.extras
    ensures r.name == if Truthy(e.newName) then e.newName.value else p.name
  {
    if Truthy(e.newName) then WithKey(p, "name", e.newName.value) else p
  }

  /** Whether `_analyze_input` goes on to write a new fact once the name is adopted. */
  predicate FactIsNew(p: ProfileData, e: Extracted)
  {
    Truthy(e.preference) && e.preference.value !in Named(p, e).facts
  }

  /** What `_analyze_input` does to the profile with the filtered extraction result, when no
      write fails. */
  function Absorb(p: ProfileData, e: Extracted): (r: ProfileData)
    ensures r.name == if Truthy(e.newName) then e.newName.value else p.name
    ensures Truthy(e.preference) ==> r.facts == WithFact(p, e.preference.value).facts
    ensures !Truthy(e.preference) ==> r.facts == p.facts
    ensures r.extras == p.extras
  {
    var named := Named(p, e);
    if Truthy(e.preference) then WithFact(named, e.preference.value) else named
  }

  // ---------------------------------------------------------------------------------------
  // The engine

  class InferenceEngine {
    const net: DynamicNeuralNetwork
    const mem: ContextManager
    const hormones: Hormones.HormoneModulator
    const profile: ProfileManager

    ghost predicate Valid()
      reads this, mem, mem.db, hormones
    {
      mem.Valid() && hormones.Valid()
    }

    constructor (net: DynamicNeuralNetwork, mem: ContextManager, hormones: Hormones.HormoneModulator,
                 profile: ProfileManager)
      ensures this.net == net && this.mem == mem && this.hormones == hormones && this.profile == profile
    {
      this.net, this.mem, this.hormones, this.profile := net, mem, hormones, profile;
    }

    /** The preparation in `run_chat`: retrieve memories for the message and build the request,
        whose system prompt is the hormone-driven prompt, the profile's core prompt and the
        retrieved memories. */
    method Prepare(userMessage: string, retrieval: Retrieval) returns (request: ChatRequest, docs: seq<string>)
      requires Valid()
      requires mem.db != null && retrieval.embedding.Some? ==> |retrieval.sims| == |mem.db.vectors|
      modifies mem`retrievedCount
      ensures Valid()
      ensures docs == mem.Relevant(RetrieveTopK, retrieval)
      ensures mem.retrievedCount == old(mem.retrievedCount) + |docs|
      ensures request == net.Request(userMessage,
                FullSystemPrompt(SystemPrompt(net.complexityLevel, hormones.stress, hormones.reward),
                                 CorePrompt(profile.data), docs), false, true)
    {
      docs := mem.RetrieveRelevant(RetrieveTopK, retrieval);
      var sysPrompt := net.BuildSystemPrompt(hormones.stress, hormones.reward);
      var coreIdentity := profile.GetCorePrompt();
      request := net.Request(userMessage, FullSystemPrompt(sysPrompt, coreIdentity, docs), false, true);
    }

    /** `run_chat`, consumed to the end, or up to the first marker when `stopsAtMarker`: record the
        user's message, prepare the request, stream the reply, and record it. */
    method RunChat(userMessage: string, retrieval: Retrieval, stream: Option<seq<string>>,
                   flags: seq<bool>, stopsAtMarker: bool)
      returns (yielded: seq<string>, docs: seq<string>)
      requires Valid()
      requires stream.Some? ==> |flags| == |stream.value|
      requires mem.db != null && retrieval.embedding.Some? ==> |retrieval.sims| == |mem.db.vectors|
      modifies mem`buffer, mem`queue, mem`retrievedCount
      ensures Valid()
      ensures docs == mem.Relevant(RetrieveTopK, retrieval)
      ensures mem.retrievedCount == old(mem.retrievedCount) + |docs|
      ensures stream.None? ==> yielded == [Apology]
      ensures stream.Some? ==> yielded == Yields(stream.value, flags)
      ensures var withUser := Push(old(mem.Contents()), Entry("User", userMessage), mem.maxBuffer);
        mem.Contents() ==
          if ReplyRecorded(stream, flags, stopsAtMarker)
          then Push(withUser, Entry("Agent", Concat(stream.value[..FirstTrue(flags)])), mem.maxBuffer)
          else withUser
    {
      mem.AddToBuffer("User", userMessage);
      var request;
      request, docs := Prepare(userMessage, retrieval);
      if stream.None? {
        yielded := [Apology];
        return;
      }
      var fullResponse, finished;
      yielded, fullResponse, finished := StreamReply(stream.value, flags);
      if !stopsAtMarker || (finished && InterruptedMarker !in yielded) {
        mem.AddToBuffer("Agent", fullResponse);
      }
    }

    /** `_analyze_input`: adopt the extracted name and preference, after filtering. `nameWriteOk`
        and `factWriteOk` say whether the two profile writes succeed; a failed write raises, which
        ends the task, so a failed name write loses the preference. */
    method AnalyzeInput(reply: Option<Extracted>, nameWriteOk: bool, factWriteOk: bool)
      returns (facts: Extracted, raised: bool)
      modifies profile
      ensures reply.None? ==> facts == Extracted(None, None)
      ensures reply.Some? ==>
        && facts.newName == (if Truthy(reply.value.newName) && NameRejected(reply.value.newName.value)
                             then None else reply.value.newName)
        && facts.preference == (if Truthy(reply.value.preference) && PreferenceRejected(reply.value.preference.value)
                                then None else reply.value.preference)
      ensures reply.None? ==> profile.data == old(profile.data) && profile.saved == old(profile.saved) && !raised
      ensures Truthy(facts.newName) ==> !NameRejected(facts.newName.value)
      ensures Truthy(facts.preference) ==> !PreferenceRejected(facts.preference.value)
      ensures Truthy(facts.newName) && !nameWriteOk ==>
                && raised && profile.data == Named(old(profile.data), facts)
                && profile.saved == old(profile.saved)
      ensures !(Truthy(facts.newName) && !nameWriteOk) ==>
                && profile.data == Absorb(old(profile.data), facts)
                && (raised <==> FactIsNew(old(profile.data), facts) && !factWriteOk)
                && profile.saved ==
                     if FactIsNew(old(profile.data), facts) && factWriteOk then Some(profile.data)
                     else if Truthy(facts.newName) then Some(Named(old(profile.data), facts))
                     else old(profile.saved)
    {
      facts := ExtractFacts(reply);
      raised := false;
      if Truthy(facts.newName) {
        raised := profile.Update("name", facts.newName.value, nameWriteOk);
        if raised {
          return;
        }
      }
      if Truthy(facts.preference) {
        raised := profile.AddFact(facts.preference.value, factWriteOk);
      }
    }

    /** `dream_loop`: dream about a topic the stress level picks; an interrupted dream leaves no
        trace, a finished one is queued and `process_queue` then consolidates the oldest item. */
    method DreamLoop(stream: Option<seq<string>>, flags: seq<bool>, c: Consolidation)
      returns (outcome: DreamOutcome, request: ChatRequest, consolidated: Option<string>,
               summarize: Option<ChatRequest>)
      requires Valid()
      requires stream.Some? ==> |flags| == |stream.value|
      modifies mem`queue, mem`consolidatedCount, mem.db
      ensures Valid()
      ensures var topic := DreamTopic(hormones.stress);
        && request == net.Request(DreamPrompt(topic), DreamSystemPrompt, true, true)
        && (stream.None? ==> outcome == StreamMissing)
        && (stream.Some? && FirstTrue(flags) < |stream.value| ==> outcome == DreamInterrupted)
        && (stream.Some? && FirstTrue(flags) == |stream.value| ==>
              outcome == Dreamt(DreamText(topic, Concat(stream.value))))
      ensures mem.buffer == old(mem.buffer)
      ensures !outcome.Dreamt? ==> mem.queue == old(mem.queue) && consolidated == None && summarize == None
      ensures !outcome.Dreamt? ==> mem.consolidatedCount == old(mem.consolidatedCount)
      ensures !outcome.Dreamt? && mem.db != null ==> unchanged(mem.db)
      ensures outcome.Dreamt? ==>
                && consolidated == Some((old(mem.queue) + [outcome.text])[0])
                && summarize == Some(net.Request(CompressPrompt(consolidated.value), SummarizerPrompt, true, false))
                && mem.queue == (old(mem.queue) + [outcome.text])[1..]
                && mem.Processed(old(mem.queue) + [outcome.text], old(mem.consolidatedCount),
                                 old(mem.StoredTexts()), old(mem.StoredVectors()), c)
    {
      var topic := DreamTopic(hormones.stress);
      request := net.Request(DreamPrompt(topic), DreamSystemPrompt, true, true);
      consolidated := None;
      if stream.None? {
        return StreamMissing, request, None, None;
      }
      // the same loop as the chat's, without the yields
      var yielded, fullDream, finished := StreamReply(stream.value, flags);
      if !finished {
        return DreamInterrupted, request, None, None;
      }
      assert stream.value[..|stream.value|] == stream.value;
      var dreamText := DreamText(topic, fullDream);
      mem.queue := mem.queue + [dreamText];
      var record;
      consolidated, summarize, record := mem.ProcessQueue(net, c);
      outcome := Dreamt(dreamText);
    }
  }
}
