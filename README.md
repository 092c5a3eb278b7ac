# Bio-Inspired Cognitive Agent — a Dafny model of its decision core

The agent is a chat companion. Its behaviour is steered by three "hormone" levels (stress,
reward, stability). A two-tier memory sits behind it:
- a bounded short-term buffer that spills into a consolidation queue;
- a long-term vector store.

A profile keeps the user's name and facts. A streamed chat turn can be interrupted. A background
life-cycle tick decays the hormones, evolves the network's complexity, speaks up proactively, or
dreams.

This project models that decision core in Dafny and proves its properties. The language models,
the sentence encoder, the vector collection, files, clocks and websockets are outside the model.
Their answers come in as parameters: a reply or `None`, a stream of chunks with one interrupt
check per chunk, a similarity per stored vector, a query response, a hash digest, a clock reading.

The files follow the program's modules:

| file | models |
|---|---|
| `hormones.dfy` | `core/hormone_system.py`: the band table, decay-add-clamp update, capped history, suggestion tree, self-assessment; class `HormoneModulator` |
| `vector_search.dfy` | the selection step of the linear-scan store's `search` |
| `chroma.dfy` | `core/chroma_store.py`: query post-filter, record and id built by `add_memory`, `upsert` defaults, `get_stats` |
| `neural.dfy` | `core/neural_engine.py`: `evolve`, the system prompt, the request `forward` makes and its fallbacks, the `extract_facts` post-filter |
| `memory.dfy` | `core/memory_system.py`: short-term buffer and queue, class `NumpyVectorDB`, class `ContextManager` |
| `profile.dfy` | `ProfileManager` in `core/memory_system.py` |
| `inference.dfy` | `core/inference_loop.py`: streaming, prompts, dream, class `InferenceEngine` |
| `agent.dfy` | `main.py`: sentiment rule, chat-endpoint turn, life-cycle tick, class `Agent` over `global_state` |
| `strings.dfy`, `options.dfy` | Python string operations (`join`, `split`, `lower`, `strip`, `in`, slicing, `int` to text) and `Option` |

Classes stand for the objects whose fields the program updates in place. Each of their methods
states every field it may change, in terms of the old state and the answers it is given; most of
them through a pure function of the old state, about which the lemmas carry the properties. Two
things are stated more loosely (see "Left out"):
- the file snapshot of the linear-scan store after a consolidation;
- the retrieval counter of a whole chat turn. `ChatTurn` ties it to `Relevant`; the methods above
  it state it as rising by the lengths of the two retrievals they return.

Where the settings file and the code disagree, the model follows the code. The code reads keys
the settings file does not define; those keys are parameters (see "Left out").

## Model

| member | source | states |
|---|---|---|
| Hormones.EvaluateState | core/hormone_system.py:37-52 | the deltas are bounded (stress in [-0.3,0.8], reward in [-0.2,0.8], stability in [-0.15,0.15]); negative feedback raises stress and lowers reward and stability, and any other feedback does the opposite (each an if-and-only-if) |
| Hormones.BandsPartition | core/hormone_system.py:41-50 | every signal lies in exactly one of the five half-open bands with edges -0.5, 0, 0.3, 0.7 |
| Hormones.EvaluateStateByBand | core/hormone_system.py:38-50 | the signal is first limited to [-1,1], then the table row of the band it falls in applies |
| Hormones.EvaluateStateMonotone | core/hormone_system.py:41-50 | stronger feedback never gives a larger stress delta or a smaller reward or stability delta |
| Hormones.EvaluateStateExample | core/hormone_system.py:38-42 | -0.8 gives (0.64, -0.2, -0.15); -3.0 is limited and gives what -1.0 gives |
| Hormones.Step | core/hormone_system.py:56-67 | after decay, delta and limiting, all three levels lie in [0,1] whatever the deltas |
| Hormones.DecayWithin | core/hormone_system.py:56-58 | decay at a rate in [0,1] lands between the level and its baseline |
| Hormones.SettleTowardBaseline | core/hormone_system.py:56-67 | with zero delta a level in [0,1] moves toward its baseline without passing it |
| Hormones.RestApproachesBaseline | core/hormone_system.py:56-67 | repeated zero-delta updates stay in [0,1] and approach the baseline step by step, never overshooting |
| Hormones.RestedApproachesBaseline | main.py:60 | the tick's `update_hormones(0,0,0)`, repeated, moves each of the three levels toward its own baseline, monotonically |
| Hormones.TestScenario | tests/test_system.py:25-33 | from the baselines, feedback -0.8 then 0.9 gives (0.74, 0.3, 0.55) then (0.408, 1.0, 0.7075): stress above 0.5, then reward above 0.7 |
| Hormones.PushHistoryKeepsNewest | core/hormone_system.py:69-71 | the history grows by one up to 100 entries, then drops its oldest; the newest entry is the new state |
| Hormones.PushAllKeepsLast | core/hormone_system.py:69-71 | from empty, the history holds exactly the last min(n,100) states, oldest first |
| Hormones.SuggestCases | core/hormone_system.py:78-88 | each of the six suggestions holds exactly when its branch condition holds and every earlier test failed |
| Hormones.InternalValidation | core/hormone_system.py:90-92 | the self-assessment always lies in [-1,1] |
| Hormones.InternalValidationUnclamped | core/hormone_system.py:90-92 | for levels in [0,1] the limiting never applies and the value lies in [-0.4,0.8] |
| Hormones.HormoneModulator.constructor | core/hormone_system.py:29-34 | the levels start at the baselines 0.1, 0.5, 0.7 with an empty history |
| Hormones.HormoneModulator.UpdateHormones | core/hormone_system.py:54-73 | the new levels and the returned snapshot are `Step` of the old levels; the history is the old one with the snapshot pushed; the levels stay in [0,1] and the history within 100 |
| Hormones.HormoneModulator.GetDiagnostics | core/hormone_system.py:94-100 | reports the current levels, the suggestion for them, a self-assessment in [-0.4,0.8] and a history length of at most 100 |
| VectorSearch.Above | core/memory_system.py:37 | exactly the indices whose similarity is strictly above the threshold, in increasing order |
| VectorSearch.SortDesc | core/memory_system.py:38 | a permutation of its input, ranked by non-increasing similarity |
| VectorSearch.SelectSound | core/memory_system.py:37-39 | at most `top_k` indices, each strictly above the threshold, best first |
| VectorSearch.SelectComplete | core/memory_system.py:37-39 | an index above the threshold left out means the selection is full and every selected index is at least as similar |
| Chroma.Zipped | core/chroma_store.py:79-85 | the zipped matches are as many as the shortest of the four first rows |
| Chroma.Query | core/chroma_store.py:69-98 | a failed call gives no matches; otherwise the matches are the zipped ones that pass the distance filter, in the backend's order |
| Chroma.KeptMembers | core/chroma_store.py:85-92 | a match is returned exactly when it is in the response and its distance is at most the threshold (inclusive) |
| Chroma.KeptWithoutThreshold | core/chroma_store.py:85-86 | without a threshold every zipped match is returned |
| Chroma.KeptAppend | core/chroma_store.py:84-92 | the filter keeps the backend's order: it distributes over concatenation |
| Chroma.QueryBound | core/chroma_store.py:79-85 | the result is no longer than any of the four parallel lists |
| Chroma.UpsertMetadatas | core/chroma_store.py:49 | non-empty metadatas pass through; missing or empty ones become one empty map per document |
| Chroma.AddMemory | core/chroma_store.py:56-67 | the record keeps every caller key except `timestamp`, `source` and `length`, which are overridden with the clock, the source and the document length; the id is `mem_{source}_{the first 8 characters of the digest}_{whole seconds}` |
| Chroma.MemoryIdClock | core/chroma_store.py:61-62 | for a non-negative clock the id ends with the decimal digits of the whole seconds |
| Chroma.GetStats | core/chroma_store.py:100-109 | a failed count gives the empty answer; otherwise the total is the count |
| Neural.MoodCases | core/neural_engine.py:24-29 | each of the four moods (stressed, euphoric, calm, none) holds exactly under its own condition, so at most one suffix is added |
| Neural.SystemPromptShape | core/neural_engine.py:14-20 | the prompt starts with the base instruction, then the "Think deeply" sentence exactly when complexity exceeds 5 and the concise one otherwise |
| Neural.EvolvedBounds | core/neural_engine.py:100-104 | once within [min,max] the complexity stays there; it moves by at most one; other directions leave it unchanged |
| Neural.EvolvedInverse | core/neural_engine.py:100-104 | away from the bounds, PRUNE undoes EXPAND and EXPAND undoes PRUNE |
| Neural.ForwardText | core/neural_engine.py:52-55 | a non-streaming call gives the reply, or "..." when it fails |
| Neural.CompressPrompt | core/neural_engine.py:57-58 | the summariser's prompt holds the text between the prefix and the closing quote, from which it can be read back |
| Neural.FindJunk | core/neural_engine.py:91-92 | the scan finds a junk phrase exactly when one occurs in the preference |
| Neural.ExtractFacts | core/neural_engine.py:81-98 | a failure gives the empty result; otherwise a truthy name that the filter rejects, or a truthy preference that the filter rejects, is nulled, and everything else is kept unstripped |
| Neural.AcceptedNamePlausible | core/neural_engine.py:83-87 | a name that passes is, once stripped of every character `str.isspace()` accepts, at least two characters long and, lower-cased, not a greeting |
| Neural.AcceptedPreferencePlausible | core/neural_engine.py:89-93 | a preference that passes is at least five characters long once lower-cased (so at least three before, since the dotted capital I lowers to two characters), and has no junk phrase at any position of its lower-cased form |
| Neural.PaddedGreetingRejected | core/neural_engine.py:84-87 | a name whose lower-cased form is a greeting is rejected whatever characters `str.isspace()` accepts surround it (the Unicode spaces and the separators \x1c to \x1f included) |
| Neural.IdeographicSpaceRejected | core/neural_engine.py:84-87 | "你好" followed by the ideographic space U+3000 is rejected |
| Neural.SeparatorPaddedRejected | core/neural_engine.py:84-87 | "hi" followed by the separator \x1c is rejected |
| Neural.DottedCapitalsKept | core/neural_engine.py:89-93 | three dotted capital I's pass: lower-cased they are six characters and hold no junk phrase |
| Neural.OwnNameRejected | core/neural_engine.py:84-87 | the agent's own name "NOVA", in capitals, is rejected |
| Neural.DynamicNeuralNetwork.constructor | core/neural_engine.py:7-11 | the model is "neural-chat" with a 4096 context window, and complexity starts at 1.0 |
| Neural.DynamicNeuralNetwork.Evolve | core/neural_engine.py:100-104 | the new complexity is `Evolved` of the old one in the given direction |
| Neural.DynamicNeuralNetwork.BuildSystemPrompt | core/neural_engine.py:14-31 | the string built step by step is the base instruction, one depth sentence and the mood suffix |
| Neural.DynamicNeuralNetwork.Request | core/neural_engine.py:33-51 | the fast model and fast temperature exactly when `use_fast`; the messages are system and then user; the request asks for streaming as told, with the configured context window |
| Memory.Push | core/memory_system.py:74-77 | the newest buffer entry is the appended one |
| Memory.PushKeepsOrder | core/memory_system.py:74-77 | the buffer stays within capacity; the queue followed by the buffer grows by exactly the new entry; an overflow moves exactly the oldest buffer entry to the end of the queue |
| Memory.PushAllFromEmpty | core/memory_system.py:74-77 | from empty, the buffer holds the last `cap` entries and the queue all earlier ones, in order |
| Memory.ElevenAppends | core/memory_system.py:75-77 | with capacity 10, eleven appends leave 10 in the buffer and 1 in the queue, which is the first entry |
| Memory.ReplaceLast | main.py:155 | overwriting the newest entry keeps the queue and the buffer length, and replaces the last entry of the log in chronological order |
| Memory.NumpyVectorDB.constructor | core/memory_system.py:18-21 | a new store is empty and nothing has been written |
| Memory.NumpyVectorDB.Add | core/memory_system.py:24-29 | the text and vector are appended; the file is written exactly when the new count is a multiple of 5, and a failed write raises; while writes succeed the file lags the texts by fewer than 5 |
| Memory.NumpyVectorDB.SearchIndices | core/memory_system.py:31-38 | nothing from an empty store or a zero query; otherwise at most `top_k` valid indices, each strictly above the threshold, in non-increasing similarity |
| Memory.NumpyVectorDB.Search | core/memory_system.py:31-39 | the texts at the selected indices, in ranking order |
| Memory.ContextManager.constructor | core/memory_system.py:55-72 | empty buffer and queue, capacity 10, zero counters; the collection is used exactly when asked for, importable and opening without error, otherwise a fresh linear-scan store |
| Memory.ContextManager.Backend | core/memory_system.py:59-67 | "chroma" exactly when the collection is in use |
| Memory.ContextManager.AddToBuffer | core/memory_system.py:74-77 | the buffer and queue become `Push` of the old ones with `"{role}: {content}"`, and the buffer stays within capacity |
| Memory.ContextManager.ReplaceNewest | main.py:155 | the buffer and queue become `ReplaceLast` of the old ones |
| Memory.ContextManager.GetRecentContext | core/memory_system.py:79-80 | when no entry holds a line break, splitting the text at line breaks gives back exactly the last `n` entries |
| Memory.ContextManager.ProcessQueue | core/memory_system.py:82-92 | an empty queue changes nothing and asks nothing; otherwise the front item is removed whatever happens next and the summariser is sent, on the fast model without streaming, the `CompressPrompt` of that item under the system prompt `Summarizer` (core/neural_engine.py:57-59); and the count rises by one exactly when summarising, encoding and storing succeed; the stored text is the summary and the record carries `source = consolidation`; `Processed` states the counter and the store's texts and vectors in terms of the old ones |
| Memory.ContextManager.Relevant | core/memory_system.py:94-105 | a failed encoding gives nothing; the linear scan gives at most `top_k` |
| Memory.ContextManager.RetrieveRelevant | core/memory_system.py:94-105 | never fails; returns the linear scan's best matches or the collection's matches within the distance threshold, and the retrieval count rises by exactly what it returns |
| Memory.ContextManager.GetMemoryStats | core/memory_system.py:107-118 | reports the backend, a buffer size within capacity, and a long-term total only for the collection (0 when its stats fail) |
| Profile.Load | core/memory_system.py:125-132 | a missing file gives name "Nova" and no facts; otherwise each missing key takes its default and every other key is kept |
| Profile.WithKey | core/memory_system.py:137-138 | setting a key changes that key only |
| Profile.WithFact | core/memory_system.py:141-144 | the fact is listed afterwards; the facts are the old ones plus it; a known fact changes nothing and a new one is appended at the end |
| Profile.WithFactIdempotent | core/memory_system.py:141-145 | adding the same fact twice is adding it once |
| Profile.WithFactNoDuplicates | core/memory_system.py:141-145 | a fact list without repetitions stays without repetitions |
| Profile.WithFactsNoDuplicates | core/memory_system.py:141-145 | any sequence of additions keeps the list free of repetitions |
| Profile.WithFactsCountsOnce | core/memory_system.py:141-145 | however often a fact is added, it is listed exactly once |
| Profile.CorePromptNames | core/memory_system.py:147-150 | the prompt opens with "Your name is {name}" and says "none yet" when no fact is known |
| Profile.CorePromptQuotesRecent | core/memory_system.py:148-150 | each of the five most recent facts occurs in the prompt |
| Profile.LikesPython | tests/test_system.py:87-89 | a fresh profile given "likes Python" lists it, and its core prompt quotes it |
| Profile.ProfileManager.constructor | core/memory_system.py:121-123 | the data is what `_load` gives for the file |
| Profile.ProfileManager.Update | core/memory_system.py:134-139 | the data becomes `WithKey` of the old data, and stays so even when the write fails; the call raises exactly when the write fails; the file then holds the new data after a good write and what it held before after a failed one |
| Profile.ProfileManager.AddFact | core/memory_system.py:134-145 | the data becomes `WithFact` of the old data; a write is tried exactly when the fact is new, and the call raises exactly when that write fails; the file holds the new data after a good write and is otherwise as it was |
| Inference.StreamReply | core/inference_loop.py:27-34 | the yields are every chunk up to the first positive interrupt check and then the marker; the full response concatenates exactly those chunks; the loop finishes exactly when no check fired |
| Inference.CollectTokens | main.py:149-153 | the consumer collects the concatenation of the tokens before the first marker, and stops exactly when a marker occurs |
| Inference.ConsumerSeesReply | main.py:149-153 | when no chunk is the marker, the consumer stops exactly where the generator was interrupted and sees exactly its chunks |
| Inference.MemoryLines | core/inference_loop.py:16 | one `[Memory]` line per retrieved document, in order |
| Inference.FullSystemPromptShows | core/inference_loop.py:16-20 | the full prompt starts with the hormone-driven prompt, quotes the profile's core prompt, ends its header at "CONTEXT:", and quotes every retrieved memory line |
| Inference.DreamTopic | core/inference_loop.py:44-45 | the topic is "a futuristic city" exactly when stress is below 0.5 |
| Inference.DreamText | core/inference_loop.py:55 | the queued text is "Dream (", the topic, "): " and the dream, each at its own position, and nothing more |
| Inference.Named | core/inference_loop.py:40 | a truthy extracted name replaces the profile's name; the facts and every other key are kept |
| Inference.Absorb | core/inference_loop.py:40-41 | when no write fails: the name is replaced only by a truthy extracted name; the fact is added only for a truthy preference; nothing else changes |
| Inference.InferenceEngine.constructor | core/inference_loop.py:5-9 | the engine shares the network, memory, hormones and profile it is given |
| Inference.InferenceEngine.Prepare | core/inference_loop.py:15-22 | it retrieves the relevant memories (counting them) and builds the streaming request from the message and a system prompt of the hormone prompt, the core prompt and those memories |
| Inference.InferenceEngine.RunChat | core/inference_loop.py:11-36 | the user turn is recorded first; a failed call yields only the apology and records no reply; otherwise it yields `Yields` and records the reply when `ReplyRecorded` holds: the partial reply when the consumer reads past the marker, the whole reply when it stops at the marker and no check fired |
| Inference.InferenceEngine.AnalyzeInput | core/inference_loop.py:38-41 | the returned extraction is the reply with a truthy name or preference the filter rejects nulled, and nothing when the extraction failed; a failed extraction changes nothing; an adopted name or preference passed the filter; when the name's write fails the call raises before the fact is looked at, with the new name kept in the data and the file as it was; otherwise the profile becomes `Absorb` of the filtered extraction, the call raises exactly when a new fact's write fails, and the file holds the data of the last good write |
| Inference.InferenceEngine.DreamLoop | core/inference_loop.py:43-58 | the topic follows the stress; a missing stream raises; an interrupted dream leaves buffer, queue and store untouched; a finished dream is appended to the queue and the following consolidation pops the queue front, which is the dream only if the queue was empty, and returns the summariser's request about that front; the counter and the store then are what `Processed` gives for that queue, and a dream that does not finish leaves the counter unchanged too |
| Agent.SentimentDrivesHormones | main.py:130-135 | a message raises stress exactly when it has a negative word; otherwise reward does not fall |
| Agent.MentionsAt | main.py:131 | a word of the list occurring in the lower-cased message makes it mention the list |
| Agent.MentionsWitness | main.py:131 | a message mentions a list only through some word of it |
| Agent.NegativeWordWins | main.py:131 | any negative word makes the sentiment -0.7, whatever else the message says |
| Agent.PositiveWordCounts | main.py:132 | a positive word and no negative word make the sentiment 0.8 |
| Agent.RecordedReply | core/inference_loop.py:27-36 | for the endpoint's consumer, the reply is recorded exactly when the stream exists, no check fired and no chunk is the marker |
| Agent.AskedLog | main.py:137-147 | before the reply the log gains, in order, the user message, the placeholder and the user message again |
| Agent.TurnLog | main.py:137-155 | what one turn appends, in all four cases of reply and collected text; the placeholder is never overwritten, and without a recorded reply the collected text overwrites the repeated user message |
| Agent.CollectedResponse | main.py:149-153 | when no chunk is the marker, the endpoint collects exactly the generator's response up to the interruption, or the apology |
| Agent.ProactivePromptMentionsFact | main.py:82-83 | the proactive prompt mentions the newest known fact |
| Agent.Agent.constructor | main.py:47-52 | status IDLE, last activity at start-up, not interrupted, no evolution yet |
| Agent.Agent.BeginTurn | main.py:126-135 | status THINKING, interrupted set, last activity now, and the hormones take one `Step` with the message's deltas, which the history gains |
| Agent.Agent.Feel | main.py:130-135 | the hormones take one `Step` with the deltas of the message's sentiment, and the history gains the new state |
| Agent.Agent.Ask | main.py:137-147 | the endpoint records the user message and then the placeholder; it returns what `retrieve_relevant` gives for the lookup, and the retrieval counter rises by exactly that many |
| Agent.Agent.Answer | main.py:149-155 | the tokens `run_chat` yields are `Streamed`; the memory is `Answered` of the old memory; the retrieval counter rises by the documents `run_chat` retrieved, which it returns |
| Agent.AnswerLog | main.py:155 | recording a reply appends it to the log, and overwriting the newest entry then swaps it for the collected text |
| Agent.Agent.Overwrite | main.py:149-155 | collects the tokens up to the marker; only a non-empty text overwrites the newest entry |
| Agent.Agent.ChatTurn | main.py:137-155 | the yielded tokens and collected text are `Streamed`; the memory is `AfterTurn` of the old memory; it returns the endpoint's and `run_chat`'s retrievals, each `Relevant` for its answers, and the retrieval counter rises by both |
| Agent.Agent.Converse | main.py:137-158 | the turn streamed; by `TurnRecorded`, the memory is `AfterTurn` followed by one consolidation pop, the returned summariser request is about the popped front (none when the queue was empty), and the counter and the store are what `Processed` gives; the retrieval counter rises by the two retrievals it returns |
| Agent.Agent.Respond | main.py:126-158 | the whole endpoint turn for a non-empty message: IDLE, not interrupted, last activity now, one hormone `Step` pushed on the history, `Streamed` tokens, the memory, summariser request, counter and store of `TurnRecorded`, and the retrieval counter up by the two returned retrievals |
| Agent.Agent.HandleMessage | main.py:121-160 | a frame that is not JSON or not a JSON object raises and changes nothing; a missing or falsy message is skipped and changes nothing; a truthy message that is not a string raises with status THINKING, interrupted set and last activity now, and hormones, memory, counters and store unchanged; a non-empty string gives `Respond`'s outcome; only a non-empty string is handled without raising |
| Agent.Agent.MaybeEvolve | main.py:69-74 | evolves exactly when the cooldown has passed and the suggestion is EXPAND or PRUNE, and then records the time |
| Agent.Agent.SpeakUp | main.py:79-88 | asks the fast model about the newest fact and records its answer (or "...") in the buffer; last activity now, status back to IDLE |
| Agent.Agent.Dream | main.py:90-95 | interrupted cleared, buffer untouched; a missing stream ends the tick with status DREAMING, otherwise status is IDLE; by `DreamRecorded`, a finished dream is queued and the queue front summarised (the request is returned) and consolidated as `Processed` says, and otherwise the queue, counter and store are unchanged and nothing is summarised |
| Agent.Agent.Tick | main.py:58-96 | the hormones decay first and the history gains the decayed state; missing behaviour settings raise; otherwise evolution follows the gate, and exactly one of proactive, dream (only outside the proactive window) or nothing happens, with the state each leaves, the counter, the store and the dream's summariser request included |
| Agent.Agent.GatedTick | main.py:58-74 | a tick with the behaviour settings present: an evolution comes more than the cooldown after the previous one and its time is recorded; otherwise the last evolution time is kept |
| Agent.Agent.LifeCycle | main.py:56-96 | over a run of ticks, evolutions are spaced more than the cooldown apart, and the last is remembered |

## Left out

- Rounding: `HormoneState.to_dict` and `get_diagnostics` round to three decimals, and the hormone levels the decisions read are rounded too. The model decides on the unrounded reals.
- Floating point: levels, similarities and vectors are exact reals, not 64- or 32-bit floats.
- Settings the code reads but the settings file does not define are parameters:
  - the hormone thresholds (`Thresholds`);
  - `evolve_cooldown` and the proactive and dream idle bounds (`BehaviorConfig`);
  - `min_complexity` and `max_complexity`;
  - `fast_model` and the two temperatures;
  - `retrieval_threshold`.
- Missing settings that crash the program as written: a `Tick` without behaviour settings raises, which is modelled. A missing threshold key (which makes `suggest_state_transition` raise) and a missing file-path key (which makes importing the memory module raise) are not modelled.
- The embedding model, the cosine similarity and the language models are oracles. Each similarity, reply, stream or failure is a parameter.
- Broadcasts and the inner-voice "thought" at main.py:142-145: both only send messages and change no modelled state. The websocket transport, the connection manager, templates and the `/status` route are also left out.
- Concurrency: `_analyze_input` and `process_queue` run as background tasks. The model runs them as separate sequential steps: `AnalyzeInput`, and the consolidation at the end of `Respond`.
- Interleaving: the interrupt flag is read through one check per chunk, given as a sequence of booleans.
- Streams: a stream is either absent or a finite sequence of chunks. A stream that raises partway through iteration (core/inference_loop.py:28 and :50) is not modelled.
- The forever loop of `life_cycle_loop` is modelled over a finite sequence of ticks, without the two-second sleep.
- Files: the JSON files of the vector store and the profile are not modelled. A write is a success flag (a failed write raises) plus a snapshot of what was last written. Only a failure before the file is opened for writing is modelled: one during `json.dump`, after `open(..., "w")` has truncated the file, would leave it empty or partial, whereas the model keeps the previous snapshot. Loading the store's file is not modelled (a new store is empty); the profile's file is given as its contents.
- Memory.ContextManager.ProcessQueue: the store's file snapshot after a consolidation is not stated (`NumpyVectorDB.Add` states it). `DreamLoop`, `Converse`, `Respond`, `HandleMessage`, `Dream` and `Tick` inherit this gap.
- Agent.Agent.Converse: the two retrievals it returns are not stated to be `Relevant` for their answers; `ChatTurn`, which it calls, states that. The same holds for `Respond` and `HandleMessage`.
- Profile.Load: a key present with a JSON null value is treated like a missing key.
- Profile.WithKey: the key `"facts"` is excluded. Other keys hold strings.
- Neural.ExtractFacts: the result's other keys, and non-string values (which would raise in `strip`), are not modelled.
- Neural.ExtractFacts: lower-casing maps only A to Z, the dotted capital I (to two characters) and the Kelvin sign; every other character is kept. Python maps any other cased letter to a single non-ASCII letter. The filter's decisions are therefore exact: the greetings and junk phrases are ASCII lower case, Han or Hangul, and the lengths agree.
- Chroma.AddMemory: the sha256 digest and the clock reading are parameters. The collection's own storage is not modelled: `upsert` is the record it receives plus a success flag.
- Memory.NumpyVectorDB.SearchIndices: the zero-norm test is modelled as an all-zero query.
- Inference.InferenceEngine.DreamLoop: when the model call fails, `dream_loop` iterates over `None` and raises. Nothing in the tick catches this, so the life-cycle task ends with status DREAMING. The model returns `StreamMissing` and `Tick` reports `Crashed`.
- Agent.Agent.HandleMessage: after a frame raises, the handler ends without `manager.disconnect`, and a status left at THINKING blocks the tick's proactive and dream branches until another connection finishes a turn. The connection manager and the other connections are not modelled. JSON numbers are reals, so `NaN` and the infinities that `json.loads` accepts are not modelled.
- Agent.Agent.HandleMessage: as written, the turn records the user message twice: once in the endpoint and once in `run_chat`. When no reply is recorded, the collected text therefore overwrites the second user entry rather than the placeholder. The model keeps this behaviour; `TurnLog` states it.
