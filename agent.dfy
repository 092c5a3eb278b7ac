/**
 * The driver (main.py): the chat endpoint's turn and the life-cycle tick that runs every two
 * seconds, over the shared agent state (`global_state`). Broadcasts to the connected clients and
 * the inner-voice "thought" are outside the model; times are parameters.
 */
module Agent {
  import opened Options
  import opened Strings
  import opened Hormones
  import opened Memory
  import opened Profile
  import opened Neural
  import opened Inference

  const NegativeWords: seq<string> := ["bad", "hate", "terrible", "angry"]
  const PositiveWords: seq<string> := ["good", "love", "great", "happy"]
  const NegativeSentiment: real := -0.7
  const PositiveSentiment: real := 0.8
  const NeutralSentiment: real := 0.1
  const Placeholder := "[generating...]"
  /** The chat endpoint retrieves three memories for its log line. */
  const ChatTopK: nat := 3
  const ProactiveRewardMin: real := 0.3
  const DreamStressMax: real := 0.4
  const CuriousSystemPrompt := "You are curious and friendly."

  // ---------------------------------------------------------------------------------------
  // Sentiment

  /** Some word occurs in the lower-cased text. */
  predicate Mentions(text: string, words: seq<string>)
    decreases |words|
  {
    words != [] && (Contains(Lower(text), words[0]) || Mentions(text, words[1..]))
  }

  /** The keyword rule: a negative word wins over a positive one. */
  function Sentiment(message: string): real
  {
    if Mentions(message, NegativeWords) then NegativeSentiment
    else if Mentions(message, PositiveWords) then PositiveSentiment
    else NeutralSentiment
  }

  /** Through the hormone rules: a message raises stress exactly when it has a negative word, and
      otherwise never lowers reward. */
  lemma SentimentDrivesHormones(message: string)
    ensures EvaluateState(Sentiment(message)).stress > 0.0 <==> Mentions(message, NegativeWords)
    ensures !Mentions(message, NegativeWords) ==> EvaluateState(Sentiment(message)).reward >= 0.0
    ensures Mentions(message, NegativeWords) ==> EvaluateState(Sentiment(message)).reward < 0.0
  {
    var s := Sentiment(message);
    if !Mentions(message, NegativeWords) {
      assert s >= 0.0;
      EvaluateStateMonotone(0.0, s);
      assert EvaluateState(0.0).reward >= 0.0;
    }
  }

  /** A text mentions a list of words when it contains any one of them. */
  lemma {:induction false} MentionsAt(text: string, words: seq<string>, k: nat)
    requires k < |words| && Contains(Lower(text), words[k])
    ensures Mentions(text, words)
    decreases k
  {
    if k > 0 {
      MentionsAt(text, words[1..], k - 1);
    }
  }

  /** And only then. */
  lemma {:induction false} MentionsWitness(text: string, words: seq<string>) returns (k: nat)
    requires Mentions(text, words)
    ensures k < |words| && Contains(Lower(text), words[k])
    decreases |words|
  {
    if Contains(Lower(text), words[0]) {
      k := 0;
    } else {
      var j := MentionsWitness(text, words[1..]);
      k := j + 1;
    }
  }

  /** Any negative word, in any case, makes the message negative, whatever else it says. */
  lemma NegativeWordWins(message: string, k: nat)
    requires k < |NegativeWords| && Contains(Lower(message), NegativeWords[k])
    ensures Sentiment(message) == NegativeSentiment
  {
    MentionsAt(message, NegativeWords, k);
  }

  /** A positive word without any negative one makes the message positive. */
  lemma PositiveWordCounts(message: string, k: nat)
    requires k < |PositiveWords| && Contains(Lower(message), PositiveWords[k])
    requires !Mentions(message, NegativeWords)
    ensures Sentiment(message) == PositiveSentiment
  {
    MentionsAt(message, PositiveWords, k);
  }

  // ---------------------------------------------------------------------------------------
  // The chat turn's bookkeeping on the short-term memory

  /** The reply `run_chat` records for the chat endpoint, which stops at the marker: the whole
      stream, or nothing. */
  function RecordedReply(stream: Option<seq<string>>, flags: seq<bool>): (reply: Option<string>)
    ensures reply.Some? <==> ReplyRecorded(stream, flags, true)
  {
    if ReplyRecorded(stream, flags, true) then Some(Concat(stream.value)) else None
  }

  /** The short-term memory after one chat turn, before consolidation: the endpoint records the
      message and a placeholder, `run_chat` records the message again and possibly the reply, and
      the endpoint then overwrites the newest entry with what it collected, if anything. */
  function AfterTurn(st: ShortTerm, msg: string, reply: Option<string>, collected: string, cap: nat): ShortTerm
    requires 1 <= cap
  {
    Answered(Push(Push(st, Entry("User", msg), cap), Entry("Agent", Placeholder), cap), msg, reply, collected, cap)
  }

  /** The part of `AfterTurn` from `run_chat` on. */
  function Answered(st: ShortTerm, msg: string, reply: Option<string>, collected: string, cap: nat): ShortTerm
    requires 1 <= cap
  {
    var asked := Push(st, Entry("User", msg), cap);
    var answered := if reply.Some? then Push(asked, Entry("Agent", reply.value), cap) else asked;
    if collected != "" then ReplaceLast(answered, Entry("Agent", collected)) else answered
  }

  /** The three entries recorded before the reply. */
  function Asked(st: ShortTerm, msg: string, cap: nat): ShortTerm
  {
    Push(Push(Push(st, Entry("User", msg), cap), Entry("Agent", Placeholder), cap), Entry("User", msg), cap)
  }

  lemma AskedLog(st: ShortTerm, msg: string, cap: nat)
    requires 1 <= cap && |st.buffer| <= cap
    ensures |Asked(st, msg, cap).buffer| <= cap
    ensures Asked(st, msg, cap).Log() == st.Log() + [Entry("User", msg), Entry("Agent", Placeholder), Entry("User", msg)]
  {
    var u := Entry("User", msg);
    var p := Entry("Agent", Placeholder);
    var s1 := Push(st, u, cap);
    PushKeepsOrder(st, u, cap);
    var s2 := Push(s1, p, cap);
    PushKeepsOrder(s1, p, cap);
    PushKeepsOrder(s2, u, cap);
    assert s2.Log() == st.Log() + [u, p];
  }

  /** Recording a reply appends it; overwriting the newest entry then swaps the reply for what
      was collected. */
  lemma AnswerLog(asked: ShortTerm, before: seq<string>, reply: string, collected: string, cap: nat)
    requires 1 <= cap && |asked.buffer| <= cap && asked.Log() == before
    ensures var answered := Push(asked, Entry("Agent", reply), cap);
      && answered.buffer != []
      && answered.Log() == before + [Entry("Agent", reply)]
      && ReplaceLast(answered, Entry("Agent", collected)).Log() == before + [Entry("Agent", collected)]
  {
    var a := Entry("Agent", reply);
    PushKeepsOrder(asked, a, cap);
    var answered := Push(asked, a, cap);
    assert answered.Log()[..|answered.Log()| - 1] == before;
  }

  /** What one turn appends to the log. The placeholder is never overwritten; when the reply was
      not recorded (an interrupted or failed stream) the collected text overwrites the repeated
      user message. */
  lemma TurnLog(st: ShortTerm, msg: string, reply: Option<string>, collected: string, cap: nat)
    requires 1 <= cap && |st.buffer| <= cap
    ensures var log := AfterTurn(st, msg, reply, collected, cap).Log();
      var u := Entry("User", msg);
      var p := Entry("Agent", Placeholder);
      && (collected == "" && reply.None? ==> log == st.Log() + [u, p, u])
      && (collected == "" && reply.Some? ==> log == st.Log() + [u, p, u, Entry("Agent", reply.value)])
      && (collected != "" && reply.Some? ==> log == st.Log() + [u, p, u, Entry("Agent", collected)])
      && (collected != "" && reply.None? ==> log == st.Log() + [u, p, Entry("Agent", collected)])
  {
    var u := Entry("User", msg);
    var p := Entry("Agent", Placeholder);
    var asked := Asked(st, msg, cap);
    AskedLog(st, msg, cap);
    var before := st.Log() + [u, p, u];
    if reply.Some? {
      AnswerLog(asked, before, reply.value, collected, cap);
    } else if collected != "" {
      assert before[..|before| - 1] == st.Log() + [u, p];
    }
  }

  /** What the chat endpoint sees of a reply: the tokens `run_chat` yields (the apology when the
      model call failed) and the text collected from them up to the first marker. */
  predicate Streamed(stream: Option<seq<string>>, flags: seq<bool>, tokens: seq<string>, collected: string)
    requires stream.Some? ==> |flags| == |stream.value|
  {
    && tokens == (if stream.None? then [Apology] else Yields(stream.value, flags))
    && collected == Concat(tokens[..FirstTrue(MarkerFlags(tokens))])
  }

  /** When no chunk is itself the marker, the endpoint collects exactly the response the
      generator accumulated before the interruption, or the apology when there was no stream. */
  lemma CollectedResponse(stream: Option<seq<string>>, flags: seq<bool>, tokens: seq<string>, collected: string)
    requires stream.Some? ==> |flags| == |stream.value|
    requires Streamed(stream, flags, tokens, collected)
    requires stream.Some? ==> InterruptedMarker !in stream.value
    ensures stream.None? ==> collected == Apology
    ensures stream.Some? ==> collected == Concat(stream.value[..FirstTrue(flags)])
  {
    if stream.Some? {
      ConsumerSeesReply(stream.value, flags);
    } else {
      FirstTrueUnique(MarkerFlags(tokens), 1);
      assert tokens[..1] == [Apology];
      assert Concat([Apology]) == Concat([]) + Apology;
    }
  }

  // ---------------------------------------------------------------------------------------
  // The endpoint's frames

  /** A value as `json.loads` decodes it; an object keeps one value per key. */
  datatype Json = Null | Bool(b: bool) | Number(x: real) | Str(s: string) | Array(items: seq<Json>)
                | Object(fields: map<string, Json>)

  /** Python's truthiness of a decoded value. */
  predicate JsonTruthy(v: Json)
  {
    match v
    case Null => false
    case Bool(b) => b
    case Number(x) => x != 0.0
    case Str(s) => s != ""
    case Array(items) => items != []
    case Object(fields) => fields != map[]
  }

  /** A received frame (`None`: not valid JSON) decodes to an object, on which `.get` works. */
  predicate IsObject(frame: Option<Json>)
  {
    frame.Some? && frame.value.Object?
  }

  /** The truthy `message` of a frame, which starts a turn. */
  function Posted(frame: Option<Json>): Option<Json>
  {
    if IsObject(frame) && "message" in frame.value.fields && JsonTruthy(frame.value.fields["message"])
    then Some(frame.value.fields["message"])
    else None
  }

  /** How the endpoint's loop leaves a frame: it reads the next one, or an exception other than a
      disconnect ends the handler. */
  datatype FrameOutcome = Handled | Raised

  // ---------------------------------------------------------------------------------------
  // The life-cycle tick

  /** The behaviour settings the tick reads (absent from the settings file). */
  datatype BehaviorConfig = BehaviorConfig(evolveCooldown: real, proactiveIdleMin: real,
                                           proactiveIdleMax: real, dreamIdleMin: real)

  /** What the outside world supplies to one tick: the clock, the reply to the proactive prompt
      (`None`: the model call failed), the dream's stream and interrupt checks, and the answers
      for the consolidation after a dream. */
  datatype TickInput = TickInput(now: real, proactiveReply: Option<string>,
                                 dreamStream: Option<seq<string>>, dreamFlags: seq<bool>,
                                 consolidation: Consolidation)

  predicate WellFormed(t: TickInput)
  {
    t.dreamStream.Some? ==> |t.dreamFlags| == |t.dreamStream.value|
  }

  /** How a tick ends: normally, or with an exception that ends the life-cycle task. */
  datatype TickOutcome = Ticked | Crashed

  predicate EvolveDue(b: BehaviorConfig, now: real, lastEvolve: real, suggested: AgentState)
  {
    now - lastEvolve > b.evolveCooldown && (suggested == Expand || suggested == Prune)
  }

  predicate InProactiveWindow(b: BehaviorConfig, idle: real)
  {
    b.proactiveIdleMin < idle < b.proactiveIdleMax
  }

  predicate ProactiveDue(b: BehaviorConfig, status: AgentState, idle: real, h: HormoneState)
  {
    status == Idle && InProactiveWindow(b, idle) && h.reward > ProactiveRewardMin
  }

  predicate DreamDue(b: BehaviorConfig, status: AgentState, idle: real, h: HormoneState)
  {
    status == Idle && !InProactiveWindow(b, idle) && idle > b.dreamIdleMin && h.stress < DreamStressMax
  }

  /** The proactive prompt: a follow-up about the newest fact, or a generic question. */
  function ProactivePrompt(facts: seq<string>): string
  {
    if facts == [] then "Ask a friendly question to learn about the user. One sentence."
    else "Ask a follow-up about " + facts[|facts| - 1] + ". One sentence."
  }

  /** The agent speaks up about the newest fact it knows. */
  lemma ProactivePromptMentionsFact(facts: seq<string>)
    requires facts != []
    ensures Contains(ProactivePrompt(facts), facts[|facts| - 1])
  {
    var last := facts[|facts| - 1];
    var head := "Ask a follow-up about ";
    var prompt := ProactivePrompt(facts);
    assert prompt == head + last + ". One sentence.";
    assert prompt[|head|..|head| + |last|] == last;
    ContainsAt(prompt, last, |head|);
  }

  class Agent {
    const hormones: HormoneModulator
    const mem: ContextManager
    const profile: ProfileManager
    const net: DynamicNeuralNetwork
    const brain: InferenceEngine
    var status: AgentState
    var lastActive: real
    var interrupted: bool
    var lastEvolveTime: real

    ghost predicate Valid()
      reads this, brain, mem, mem.db, hormones
    {
      && brain.net == net && brain.mem == mem && brain.hormones == hormones && brain.profile == profile
      && mem.Valid() && hormones.Valid()
    }

    /** The short-term memory, the consolidation counter and the store after a chat turn that
        started from `st` and recorded `reply` and `collected`: the queue the turn left has had its
        front popped, `summarize` is the summariser's request about that front, and the front was
        processed from the counter `count` and the store contents `texts` and `vectors`. */
    ghost predicate TurnRecorded(st: ShortTerm, msg: string, reply: Option<string>, collected: string,
                                 count: nat, texts: seq<string>, vectors: seq<seq<real>>,
                                 c: Consolidation, summarize: Option<ChatRequest>)
      reads mem, mem.db
      requires 1 <= mem.maxBuffer
    {
      var after := AfterTurn(st, msg, reply, collected, mem.maxBuffer);
      && mem.Contents() == PopFront(after)
      && summarize == SummaryRequest(net, after.queue)
      && mem.Processed(after.queue, count, texts, vectors, c)
    }

    /** Neither the consolidation counter nor the store has changed. */
    ghost predicate StoreKept(count: nat, texts: seq<string>, vectors: seq<seq<real>>)
      reads mem, mem.db
    {
      mem.consolidatedCount == count && mem.StoredTexts() == texts && mem.StoredVectors() == vectors
    }

    /** The queue, the counter and the store after the dream of tick `t`, given them as they were:
        a finished dream is queued and the queue's front summarised (`summarize` is the request)
        and processed; otherwise nothing changes and nothing is summarised. */
    ghost predicate DreamRecorded(t: TickInput, queue: seq<string>, count: nat, texts: seq<string>,
                                  vectors: seq<seq<real>>, summarize: Option<ChatRequest>)
      reads mem, mem.db, hormones
      requires WellFormed(t)
    {
      if t.dreamStream.Some? && FirstTrue(t.dreamFlags) == |t.dreamStream.value| then
        var text := DreamText(DreamTopic(hormones.stress), Concat(t.dreamStream.value));
        && mem.queue == (queue + [text])[1..] && summarize == SummaryRequest(net, queue + [text])
        && mem.Processed(queue + [text], count, texts, vectors, t.consolidation)
      else
        mem.queue == queue && summarize == None && StoreKept(count, texts, vectors)
    }

    constructor (hormones: HormoneModulator, mem: ContextManager, profile: ProfileManager,
                 net: DynamicNeuralNetwork, startTime: real)
      requires mem.Valid() && hormones.Valid()
      ensures Valid() && fresh(brain)
      ensures this.hormones == hormones && this.mem == mem && this.profile == profile && this.net == net
      ensures status == Idle && lastActive == startTime && !interrupted && lastEvolveTime == 0.0
    {
      this.hormones, this.mem, this.profile, this.net := hormones, mem, profile, net;
      brain := new InferenceEngine(net, mem, hormones, profile);
      status, lastActive, interrupted, lastEvolveTime := Idle, startTime, false, 0.0;
    }

    /** The endpoint's first steps: mark the agent busy, score the message and update the hormones. */
    method BeginTurn(msg: string, now: real)
      requires Valid()
      modifies this`status, this`lastActive, this`interrupted, hormones
      ensures Valid()
      ensures status == Thinking && lastActive == now && interrupted
      ensures hormones.State() == Step(old(hormones.State()), EvaluateState(Sentiment(msg)), hormones.decayRate)
      ensures hormones.history == PushHistory(old(hormones.history), hormones.State())
    {
      Feel(msg);
      interrupted, lastActive, status := true, now, Thinking;
    }

    /** The endpoint scores the message's sentiment and feeds its deltas to the hormones. */
    method Feel(msg: string)
      requires hormones.Valid()
      modifies hormones
      ensures hormones.Valid()
      ensures hormones.State() == Step(old(hormones.State()), EvaluateState(Sentiment(msg)), hormones.decayRate)
      ensures hormones.history == PushHistory(old(hormones.history), hormones.State())
    {
      var d := EvaluateState(Sentiment(msg));
      var updated := hormones.UpdateHormones(d.stress, d.reward, d.stability);
    }

    /** The endpoint's bookkeeping around `run_chat`, up to overwriting the newest entry. */
    method ChatTurn(msg: string, lookup: Retrieval, chat: Retrieval, stream: Option<seq<string>>, flags: seq<bool>)
      returns (tokens: seq<string>, collected: string, relevant: seq<string>, relevantMems: seq<string>)
      requires Valid()
      requires stream.Some? ==> |flags| == |stream.value|
      requires mem.db != null && lookup.embedding.Some? ==> |lookup.sims| == |mem.db.vectors|
      requires mem.db != null && chat.embedding.Some? ==> |chat.sims| == |mem.db.vectors|
      modifies mem`buffer, mem`queue, mem`retrievedCount
      ensures Valid()
      ensures Streamed(stream, flags, tokens, collected)
      ensures mem.Contents() == AfterTurn(old(mem.Contents()), msg, RecordedReply(stream, flags), collected, mem.maxBuffer)
      ensures relevant == mem.Relevant(ChatTopK, lookup) && relevantMems == mem.Relevant(RetrieveTopK, chat)
      ensures mem.retrievedCount == old(mem.retrievedCount) + |relevant| + |relevantMems|
    {
      relevant := Ask(msg, lookup);
      tokens, collected, relevantMems := Answer(msg, chat, stream, flags);
    }

    /** `run_chat` and the overwrite of the newest entry that follows it. */
    method Answer(msg: string, chat: Retrieval, stream: Option<seq<string>>, flags: seq<bool>)
      returns (tokens: seq<string>, collected: string, relevantMems: seq<string>)
      requires Valid()
      requires stream.Some? ==> |flags| == |stream.value|
      requires mem.db != null && chat.embedding.Some? ==> |chat.sims| == |mem.db.vectors|
      modifies mem`buffer, mem`queue, mem`retrievedCount
      ensures Valid()
      ensures Streamed(stream, flags, tokens, collected)
      ensures mem.Contents() == Answered(old(mem.Contents()), msg, RecordedReply(stream, flags), collected, mem.maxBuffer)
      ensures relevantMems == mem.Relevant(RetrieveTopK, chat)
      ensures mem.retrievedCount == old(mem.retrievedCount) + |relevantMems|
    {
      tokens, relevantMems := brain.RunChat(msg, chat, stream, flags, true);
      if ReplyRecorded(stream, flags, true) {
        assert stream.value[..FirstTrue(flags)] == stream.value;
      }
      collected := Overwrite(tokens);
    }

    /** The endpoint records the message, retrieves memories for its log line, and records the
        placeholder. */
    method Ask(msg: string, lookup: Retrieval) returns (relevant: seq<string>)
      requires Valid()
      requires mem.db != null && lookup.embedding.Some? ==> |lookup.sims| == |mem.db.vectors|
      modifies mem`buffer, mem`queue, mem`retrievedCount
      ensures Valid()
      ensures mem.Contents() ==
                Push(Push(old(mem.Contents()), Entry("User", msg), mem.maxBuffer), Entry("Agent", Placeholder), mem.maxBuffer)
      ensures relevant == mem.Relevant(ChatTopK, lookup)
      ensures mem.retrievedCount == old(mem.retrievedCount) + |relevant|
    {
      mem.AddToBuffer("User", msg);
      relevant := mem.RetrieveRelevant(ChatTopK, lookup);
      mem.AddToBuffer("Agent", Placeholder);
    }

    /** The endpoint collects the tokens up to the marker and, if any text came, overwrites the
        newest entry with it. */
    method Overwrite(tokens: seq<string>) returns (collected: string)
      requires Valid() && mem.buffer != []
      modifies mem`buffer
      ensures Valid()
      ensures collected == Concat(tokens[..FirstTrue(MarkerFlags(tokens))])
      ensures mem.Contents() ==
                if collected != "" then ReplaceLast(old(mem.Contents()), Entry("Agent", collected)) else old(mem.Contents())
    {
      var stopped;
      collected, stopped := CollectTokens(tokens);
      if collected != "" {
        mem.ReplaceNewest(Entry("Agent", collected));
      }
    }

    /** The endpoint's handling of a non-empty message. `lookup` and `chat` answer the endpoint's
        retrieval and `run_chat`'s; `stream` and `flags` are the reply stream and the interrupt checks
        during it; `c` answers the consolidation that follows. Returns the tokens `run_chat` yields
        and the text the endpoint collects. */
    method Respond(msg: string, now: real, lookup: Retrieval, chat: Retrieval,
                   stream: Option<seq<string>>, flags: seq<bool>, c: Consolidation)
      returns (tokens: seq<string>, collected: string, relevant: seq<string>, relevantMems: seq<string>,
               summarize: Option<ChatRequest>)
      requires Valid()
      requires stream.Some? ==> |flags| == |stream.value|
      requires mem.db != null && lookup.embedding.Some? ==> |lookup.sims| == |mem.db.vectors|
      requires mem.db != null && chat.embedding.Some? ==> |chat.sims| == |mem.db.vectors|
      modifies this`status, this`lastActive, this`interrupted, hormones, mem, mem.db
      ensures Valid()
      ensures status == Idle && lastActive == now && !interrupted
      ensures hormones.State() == Step(old(hormones.State()), EvaluateState(Sentiment(msg)), hormones.decayRate)
      ensures hormones.history == PushHistory(old(hormones.history), hormones.State())
      ensures Streamed(stream, flags, tokens, collected)
      ensures mem.retrievedCount == old(mem.retrievedCount) + |relevant| + |relevantMems|
      ensures TurnRecorded(old(mem.Contents()), msg, RecordedReply(stream, flags), collected,
                           old(mem.consolidatedCount), old(mem.StoredTexts()), old(mem.StoredVectors()), c, summarize)
    {
      ghost var st, count, texts, vectors := mem.Contents(), mem.consolidatedCount, mem.StoredTexts(), mem.StoredVectors();
      BeginTurn(msg, now);
      // the inner-voice thought is only broadcast
      interrupted := false;
      tokens, collected, relevant, relevantMems, summarize :=
        Converse(msg, lookup, chat, stream, flags, c, st, count, texts, vectors, mem.retrievedCount);
      status := Idle;
    }

    /** The rest of the turn: stream the reply, then consolidate. `st`, `count`, `texts`,
        `vectors` and `retrieved` name the memory, counters and store it starts from. */
    method Converse(msg: string, lookup: Retrieval, chat: Retrieval,
                    stream: Option<seq<string>>, flags: seq<bool>, c: Consolidation,
                    ghost st: ShortTerm, ghost count: nat, ghost texts: seq<string>,
                    ghost vectors: seq<seq<real>>, ghost retrieved: nat)
      returns (tokens: seq<string>, collected: string, relevant: seq<string>, relevantMems: seq<string>,
               summarize: Option<ChatRequest>)
      requires Valid()
      requires mem.Contents() == st && StoreKept(count, texts, vectors) && mem.retrievedCount == retrieved
      requires stream.Some? ==> |flags| == |stream.value|
      requires mem.db != null && lookup.embedding.Some? ==> |lookup.sims| == |mem.db.vectors|
      requires mem.db != null && chat.embedding.Some? ==> |chat.sims| == |mem.db.vectors|
      modifies mem, mem.db
      ensures Valid()
      ensures status == old(status) && lastActive == old(lastActive) && interrupted == old(interrupted)
      ensures Streamed(stream, flags, tokens, collected)
      ensures mem.retrievedCount == retrieved + |relevant| + |relevantMems|
      ensures TurnRecorded(st, msg, RecordedReply(stream, flags), collected, count, texts, vectors, c, summarize)
    {
      tokens, collected, relevant, relevantMems := ChatTurn(msg, lookup, chat, stream, flags);
      var item, record;
      item, summarize, record := mem.ProcessQueue(net, c);
    }

    /** One frame on the chat endpoint. A frame that is not JSON, or not a JSON object, raises in
        `json.loads` or `.get` before anything changes; a missing or falsy message is skipped; a
        truthy message that is not a string raises in `lower()` once the turn has begun, leaving
        the status THINKING; a non-empty string gets `Respond`'s turn. */
    method HandleMessage(frame: Option<Json>, now: real, lookup: Retrieval, chat: Retrieval,
                         stream: Option<seq<string>>, flags: seq<bool>, c: Consolidation)
      returns (outcome: FrameOutcome, tokens: seq<string>, collected: string, relevant: seq<string>,
               relevantMems: seq<string>, summarize: Option<ChatRequest>)
      requires Valid()
      requires stream.Some? ==> |flags| == |stream.value|
      requires mem.db != null && lookup.embedding.Some? ==> |lookup.sims| == |mem.db.vectors|
      requires mem.db != null && chat.embedding.Some? ==> |chat.sims| == |mem.db.vectors|
      modifies this`status, this`lastActive, this`interrupted, hormones, mem, mem.db
      ensures Valid()
      ensures outcome == Raised <==> !IsObject(frame) || (Posted(frame).Some? && !Posted(frame).value.Str?)
      ensures !(Posted(frame).Some? && Posted(frame).value.Str?) ==>
                && hormones.State() == old(hormones.State()) && hormones.history == old(hormones.history)
                && mem.Contents() == old(mem.Contents()) && mem.retrievedCount == old(mem.retrievedCount)
                && StoreKept(old(mem.consolidatedCount), old(mem.StoredTexts()), old(mem.StoredVectors()))
                && tokens == [] && collected == "" && relevant == [] && relevantMems == [] && summarize == None
      ensures Posted(frame).None? ==>
                status == old(status) && lastActive == old(lastActive) && interrupted == old(interrupted)
      ensures Posted(frame).Some? && !Posted(frame).value.Str? ==>
                status == Thinking && lastActive == now && interrupted
      ensures Posted(frame).Some? && Posted(frame).value.Str? ==>
                var msg := Posted(frame).value.s;
                && status == Idle && lastActive == now && !interrupted
                && hormones.State() == Step(old(hormones.State()), EvaluateState(Sentiment(msg)), hormones.decayRate)
                && hormones.history == PushHistory(old(hormones.history), hormones.State())
                && Streamed(stream, flags, tokens, collected)
                && mem.retrievedCount == old(mem.retrievedCount) + |relevant| + |relevantMems|
                && TurnRecorded(old(mem.Contents()), msg, RecordedReply(stream, flags), collected,
                                old(mem.consolidatedCount), old(mem.StoredTexts()), old(mem.StoredVectors()), c, summarize)
    {
      tokens, collected, relevant, relevantMems, summarize := [], "", [], [], None;
      if !IsObject(frame) {
        return Raised, tokens, collected, relevant, relevantMems, summarize;
      }
      var message := Posted(frame);
      if message.None? {
        return Handled, tokens, collected, relevant, relevantMems, summarize;
      }
      if !message.value.Str? {
        interrupted, lastActive, status := true, now, Thinking;
        return Raised, tokens, collected, relevant, relevantMems, summarize;
      }
      tokens, collected, relevant, relevantMems, summarize := Respond(message.value.s, now, lookup, chat, stream, flags, c);
      outcome := Handled;
    }

    /** The evolution gate: evolve in the suggested direction when the cooldown has passed and the
        suggestion is EXPAND or PRUNE. */
    method MaybeEvolve(b: BehaviorConfig, now: real, suggested: AgentState) returns (evolved: bool)
      modifies this`lastEvolveTime, net`complexityLevel
      ensures evolved <==> EvolveDue(b, now, old(lastEvolveTime), suggested)
      ensures lastEvolveTime == if evolved then now else old(lastEvolveTime)
      ensures net.complexityLevel ==
                if evolved then Evolved(old(net.complexityLevel), suggested.Value(), net.minComplexity, net.maxComplexity)
                else old(net.complexityLevel)
    {
      evolved := false;
      if now - lastEvolveTime > b.evolveCooldown && (suggested == Expand || suggested == Prune) {
        net.Evolve(suggested.Value());
        lastEvolveTime := now;
        evolved := true;
      }
    }

    /** The proactive branch: ask about the newest fact and record the model's answer. */
    method SpeakUp(now: real, reply: Option<string>) returns (request: ChatRequest)
      requires Valid()
      modifies this`status, this`lastActive, mem`buffer, mem`queue
      ensures Valid()
      ensures status == Idle && lastActive == now
      ensures request == net.Request(ProactivePrompt(old(profile.data.facts)), CuriousSystemPrompt, true, false)
      ensures mem.Contents() == Push(old(mem.Contents()), Entry("Agent", ForwardText(reply)), mem.maxBuffer)
    {
      status := Proactive;
      var prompt := ProactivePrompt(profile.data.facts);
      request := net.Request(prompt, CuriousSystemPrompt, true, false);
      var msg := ForwardText(reply);
      mem.AddToBuffer("Agent", msg);
      lastActive := now;
      status := Idle;
    }

    /** The dreaming branch; a missing stream raises inside `dream_loop` and the status stays DREAMING. */
    method Dream(t: TickInput, ghost queue: seq<string>, ghost count: nat, ghost texts: seq<string>,
                 ghost vectors: seq<seq<real>>)
      returns (outcome: TickOutcome, summarize: Option<ChatRequest>)
      requires Valid() && WellFormed(t)
      requires mem.queue == queue && StoreKept(count, texts, vectors)
      modifies this`status, this`interrupted, mem`queue, mem`consolidatedCount, mem.db
      ensures Valid()
      ensures !interrupted && mem.buffer == old(mem.buffer)
      ensures lastActive == old(lastActive) && lastEvolveTime == old(lastEvolveTime)
      ensures outcome == Crashed <==> t.dreamStream.None?
      ensures status == if t.dreamStream.None? then Dreaming else Idle
      ensures DreamRecorded(t, queue, count, texts, vectors, summarize)
    {
      status := Dreaming;
      interrupted := false;
      var dream, request, consolidated;
      dream, request, consolidated, summarize := brain.DreamLoop(t.dreamStream, t.dreamFlags, t.consolidation);
      if dream.StreamMissing? {
        return Crashed, None;
      }
      status := Idle;
      outcome := Ticked;
    }

    /** One pass of `life_cycle_loop`. `cfg` is `None` when the settings lack the behaviour keys:
        reading them raises right after the hormones decay. */
    method Tick(cfg: Option<BehaviorConfig>, thresholds: Thresholds, t: TickInput)
      returns (outcome: TickOutcome, evolved: bool, proactiveRequest: Option<ChatRequest>,
               summarize: Option<ChatRequest>)
      requires Valid() && WellFormed(t)
      modifies this, hormones, net`complexityLevel, mem`buffer, mem`queue, mem`consolidatedCount, mem.db
      ensures Valid()
      ensures hormones.State() == Step(old(hormones.State()), NoChange, hormones.decayRate)
      ensures hormones.history == PushHistory(old(hormones.history), hormones.State())
      ensures cfg.None? ==>
                && outcome == Crashed && !evolved && proactiveRequest == None && summarize == None
                && status == old(status) && lastActive == old(lastActive) && interrupted == old(interrupted)
                && lastEvolveTime == old(lastEvolveTime) && net.complexityLevel == old(net.complexityLevel)
                && mem.Contents() == old(mem.Contents()) && StoreKept(old(mem.consolidatedCount), old(mem.StoredTexts()), old(mem.StoredVectors()))
      ensures cfg.Some? ==>
        var b := cfg.value;
        var suggested := Suggest(hormones.State(), thresholds);
        && (evolved <==> EvolveDue(b, t.now, old(lastEvolveTime), suggested))
        && lastEvolveTime == (if evolved then t.now else old(lastEvolveTime))
        && net.complexityLevel ==
             (if evolved then Evolved(old(net.complexityLevel), suggested.Value(), net.minComplexity, net.maxComplexity)
              else old(net.complexityLevel))
      ensures cfg.Some? && ProactiveDue(cfg.value, old(status), t.now - old(lastActive), hormones.State()) ==>
                && outcome == Ticked && status == Idle && lastActive == t.now && interrupted == old(interrupted)
                && proactiveRequest == Some(net.Request(ProactivePrompt(profile.data.facts), CuriousSystemPrompt, true, false))
                && summarize == None
                && mem.Contents() == Push(old(mem.Contents()), Entry("Agent", ForwardText(t.proactiveReply)), mem.maxBuffer)
                && StoreKept(old(mem.consolidatedCount), old(mem.StoredTexts()), old(mem.StoredVectors()))
      ensures cfg.Some? && DreamDue(cfg.value, old(status), t.now - old(lastActive), hormones.State()) ==>
                && !interrupted && lastActive == old(lastActive) && mem.buffer == old(mem.buffer)
                && proactiveRequest == None
                && (outcome == Crashed <==> t.dreamStream.None?)
                && status == (if t.dreamStream.None? then Dreaming else Idle)
                && DreamRecorded(t, old(mem.queue), old(mem.consolidatedCount), old(mem.StoredTexts()),
                                 old(mem.StoredVectors()), summarize)
      ensures cfg.Some? && !ProactiveDue(cfg.value, old(status), t.now - old(lastActive), hormones.State())
                && !DreamDue(cfg.value, old(status), t.now - old(lastActive), hormones.State()) ==>
                && outcome == Ticked && proactiveRequest == None && summarize == None && status == old(status)
                && lastActive == old(lastActive) && interrupted == old(interrupted)
                && mem.Contents() == old(mem.Contents()) && StoreKept(old(mem.consolidatedCount), old(mem.StoredTexts()), old(mem.StoredVectors()))
    {
      ghost var queue, count, texts, vectors := mem.queue, mem.consolidatedCount, mem.StoredTexts(), mem.StoredVectors();
      var h := hormones.UpdateHormones(0.0, 0.0, 0.0);
      var suggested := Suggest(h, thresholds);
      evolved, proactiveRequest, summarize := false, None, None;
      if cfg.None? {
        return Crashed, false, None, None;
      }
      var b := cfg.value;
      var now := t.now;
      evolved := MaybeEvolve(b, now, suggested);
      var idle := now - lastActive;
      outcome := Ticked;
      if status == Idle {
        if b.proactiveIdleMin < idle < b.proactiveIdleMax {
          if h.reward > ProactiveRewardMin {
            var request := SpeakUp(now, t.proactiveReply);
            proactiveRequest := Some(request);
          }
        } else if idle > b.dreamIdleMin && h.stress < DreamStressMax {
          outcome, summarize := Dream(t, queue, count, texts, vectors);
        }
      }
    }

    /** `life_cycle_loop` over a finite run of ticks, until one raises. Evolutions are spaced more
        than the cooldown apart, and the last one is remembered. */
    method LifeCycle(cfg: BehaviorConfig, thresholds: Thresholds, ticks: seq<TickInput>)
      returns (evolveTimes: seq<real>, crashed: bool)
      requires Valid() && forall i :: 0 <= i < |ticks| ==> WellFormed(ticks[i])
      modifies this, hormones, net`complexityLevel, mem`buffer, mem`queue, mem`consolidatedCount, mem.db
      ensures Valid()
      ensures |evolveTimes| > 0 ==> evolveTimes[0] - old(lastEvolveTime) > cfg.evolveCooldown
      ensures forall i :: 0 < i < |evolveTimes| ==> evolveTimes[i] - evolveTimes[i - 1] > cfg.evolveCooldown
      ensures lastEvolveTime == if evolveTimes == [] then old(lastEvolveTime) else evolveTimes[|evolveTimes| - 1]
    {
      evolveTimes, crashed := [], false;
      var i := 0;
      while i < |ticks| && !crashed
        invariant 0 <= i <= |ticks| && Valid()
        invariant |evolveTimes| > 0 ==> evolveTimes[0] - old(lastEvolveTime) > cfg.evolveCooldown
        invariant forall k :: 0 < k < |evolveTimes| ==> evolveTimes[k] - evolveTimes[k - 1] > cfg.evolveCooldown
        invariant lastEvolveTime == if evolveTimes == [] then old(lastEvolveTime) else evolveTimes[|evolveTimes| - 1]
      {
        var evolved;
        crashed, evolved := GatedTick(cfg, thresholds, ticks[i]);
        if evolved {
          evolveTimes := evolveTimes + [ticks[i].now];
        }
        i := i + 1;
      }
    }

    /** A tick with the behaviour settings present, as the evolution gate sees it: an evolution
        comes more than the cooldown after the previous one and is remembered. */
    method GatedTick(cfg: BehaviorConfig, thresholds: Thresholds, t: TickInput) returns (crashed: bool, evolved: bool)
      requires Valid() && WellFormed(t)
      modifies this, hormones, net`complexityLevel, mem`buffer, mem`queue, mem`consolidatedCount, mem.db
      ensures Valid()
      ensures evolved ==> t.now - old(lastEvolveTime) > cfg.evolveCooldown && lastEvolveTime == t.now
      ensures !evolved ==> lastEvolveTime == old(lastEvolveTime)
    {
      var outcome, request, summarize;
      outcome, evolved, request, summarize := Tick(Some(cfg), thresholds, t);
      crashed := outcome == Crashed;
    }
  }
}
