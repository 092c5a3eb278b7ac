/**
 * The rule-based parts of the text-generation front end (core/neural_engine.py): the complexity
 * level `evolve` adjusts, the system prompt built from it and the mood, the choice of model and
 * temperature, the fallbacks on failure, and the filters applied to extracted facts. The model
 * server itself is outside the model: what it answers comes in as a parameter.
 */
module Neural {
  import opened Options
  import opened Strings
  import Hormones

  const BaseInstruction := "You are a helpful AI assistant."
  const DeepClause := " Think deeply and provide detailed, nuanced answers."
  const ConciseClause := " Be concise and direct."
  const StressedSuffix := " [STATE: STRESSED] You are currently irritated. Keep answers short and slightly defensive."
  const EuphoricSuffix := " [STATE: EUPHORIC] You are excited and very helpful!"
  const CalmSuffix := " [STATE: CALM] You are balanced and reflective."

  const ModelName := "neural-chat"
  const ContextWindow: nat := 4096
  const InitialComplexity: real := 1.0
  const Fallback := "..."

  // ---------------------------------------------------------------------------------------
  // _build_system_prompt

  datatype Mood = Stressed | Euphoric | Calm | Neutral

  /** The mood whose suffix is added: the first test that holds wins. */
  function MoodOf(stress: real, reward: real): Mood
  {
    if stress > 0.7 then Stressed
    else if reward > 0.7 then Euphoric
    else if stress < 0.3 && reward > 0.4 then Calm
    else Neutral
  }

  /** Each mood holds exactly under its own conditions. */
  lemma MoodCases(stress: real, reward: real)
    ensures MoodOf(stress, reward) == Stressed <==> stress > 0.7
    ensures MoodOf(stress, reward) == Euphoric <==> stress <= 0.7 && reward > 0.7
    ensures MoodOf(stress, reward) == Calm <==> stress < 0.3 && 0.4 < reward <= 0.7
    ensures MoodOf(stress, reward) == Neutral
            <==> stress <= 0.7 && reward <= 0.7 && (stress >= 0.3 || reward <= 0.4)
  {
  }

  function MoodSuffix(m: Mood): string
  {
    match m
    case Stressed => StressedSuffix
    case Euphoric => EuphoricSuffix
    case Calm => CalmSuffix
    case Neutral => ""
  }

  function DepthClause(complexity: real): string
  {
    if complexity > 5.0 then DeepClause else ConciseClause
  }

  /** The base instruction, then one depth sentence, then at most one mood suffix. */
  function SystemPrompt(complexity: real, stress: real, reward: real): string
  {
    BaseInstruction + DepthClause(complexity) + MoodSuffix(MoodOf(stress, reward))
  }

  /** The prompt starts with the base instruction followed by the depth sentence, which is the
      "Think deeply" one exactly when the complexity is above 5. */
  lemma SystemPromptShape(complexity: real, stress: real, reward: real)
    ensures var p := SystemPrompt(complexity, stress, reward);
      var n := |BaseInstruction| + |DepthClause(complexity)|;
      && n <= |p|
      && p[..|BaseInstruction|] == BaseInstruction
      && p[|BaseInstruction|..n] == DepthClause(complexity)
      && (DepthClause(complexity) == DeepClause <==> complexity > 5.0)
  {
    var p := SystemPrompt(complexity, stress, reward);
    var d := DepthClause(complexity);
    assert p == (BaseInstruction + d) + MoodSuffix(MoodOf(stress, reward));
    assert (BaseInstruction + d)[..|BaseInstruction|] == BaseInstruction;
    assert |DeepClause| != |ConciseClause|;
  }

  // ---------------------------------------------------------------------------------------
  // evolve

  /** The complexity after `evolve(direction)`. */
  function Evolved(c: real, direction: string, lo: real, hi: real): real
  {
    if direction == "EXPAND" then Hormones.Min(hi, c + 1.0)
    else if direction == "PRUNE" then Hormones.Max(lo, c - 1.0)
    else c
  }

  /** `evolve` keeps the complexity within the configured bounds once it is within them, and
      moves it by at most one step. */
  lemma EvolvedBounds(c: real, direction: string, lo: real, hi: real)
    requires lo <= c <= hi
    ensures lo <= Evolved(c, direction, lo, hi) <= hi
    ensures c - 1.0 <= Evolved(c, direction, lo, hi) <= c + 1.0
    ensures direction != "EXPAND" && direction != "PRUNE" ==> Evolved(c, direction, lo, hi) == c
  {
  }

  /** Away from the bounds, pruning undoes an expansion and expanding undoes a pruning. */
  lemma EvolvedInverse(c: real, lo: real, hi: real)
    ensures lo <= c && c + 1.0 <= hi ==> Evolved(Evolved(c, "EXPAND", lo, hi), "PRUNE", lo, hi) == c
    ensures lo <= c - 1.0 && c <= hi ==> Evolved(Evolved(c, "PRUNE", lo, hi), "EXPAND", lo, hi) == c
  {
  }

  // ---------------------------------------------------------------------------------------
  // forward, compress_text

  datatype Message = Message(role: string, content: string)

  /** The call `forward` makes to the model server. */
  datatype ChatRequest = ChatRequest(model: string, messages: seq<Message>, stream: bool,
                                     temperature: real, numCtx: nat)

  /** `fast_model`, `temperature` and `fast_temperature` are not in the settings file. */
  datatype ModelConfig = ModelConfig(modelName: string, fastModel: string, temperature: real,
                                     fastTemperature: real, contextWindow: nat)

  /** What a non-streaming `forward` returns: the reply, or "..." when the call fails. */
  function ForwardText(reply: Option<string>): (r: string)
    ensures reply.None? ==> r == Fallback
    ensures reply.Some? ==> r == reply.value
  {
    reply.GetOr(Fallback)
  }

  const SummarizePrefix := "Summarize this in one short sentence: '"
  const SummarizerPrompt := "Summarizer"

  /** The prompt `compress_text` sends; the text sits between the quotes and can be read back. */
  function CompressPrompt(text: string): (r: string)
    ensures |r| == |SummarizePrefix| + |text| + 1
    ensures r[..|SummarizePrefix|] == SummarizePrefix && r[|r| - 1] == '\''
    ensures r[|SummarizePrefix|..|r| - 1] == text
  {
    SummarizePrefix + text + "'"
  }

  // ---------------------------------------------------------------------------------------
  // extract_facts

  /** The two keys of the extraction result; a missing key and JSON null are both `None`. */
  datatype Extracted = Extracted(newName: Option<string>, preference: Option<string>)

  const Greetings: seq<string> := ["hello", "hi", "hey", "you", "ai", "nova", "你好", "안녕하세요"]
  const Junk: seq<string> := ["user preference", "name change", "fact", "preference", "未知", "用户偏好"]

  /** Python truthiness of an optional string. */
  predicate Truthy(v: Option<string>)
  {
    v.Some? && v.value != ""
  }

  predicate NameRejected(name: string)
  {
    Lower(Strip(name)) in Greetings || |Strip(name)| < 2
  }

  predicate PreferenceRejected(pref: string)
  {
    (exists j :: 0 <= j < |Junk| && Contains(Lower(pref), Junk[j])) || |Lower(pref)| < 5
  }

  /** The scan of `extract_facts` over the junk phrases. */
  method FindJunk(pref: string) returns (junky: bool)
    ensures junky <==> exists k :: 0 <= k < |Junk| && Contains(pref, Junk[k])
  {
    junky := false;
    for j := 0 to |Junk|
      invariant junky <==> exists k :: 0 <= k < j && Contains(pref, Junk[k])
    {
      if Contains(pref, Junk[j]) {
        junky := true;
      }
    }
  }

  /** The post-filter of `extract_facts`; `reply == None` is any failure (model call or JSON),
      which gives `{}`. A name or preference that passes is kept as extracted, unstripped. */
  method ExtractFacts(reply: Option<Extracted>) returns (result: Extracted)
    ensures reply.None? ==> result == Extracted(None, None)
    ensures reply.Some? ==>
      && result.newName == (if Truthy(reply.value.newName) && NameRejected(reply.value.newName.value)
                            then None else reply.value.newName)
      && result.preference == (if Truthy(reply.value.preference) && PreferenceRejected(reply.value.preference.value)
                               then None else reply.value.preference)
  {
    if reply.None? {
      return Extracted(None, None);
    }
    result := reply.value;
    if Truthy(result.newName) {
      var name := Strip(result.newName.value);
      if Lower(name) in Greetings || |name| < 2 {
        result := result.(newName := None);
      }
    }
    if Truthy(result.preference) {
      var pref := Lower(result.preference.value);
      var junky := FindJunk(pref);
      if junky || |pref| < 5 {
        result := result.(preference := None);
      }
    }
  }

  /** A name that survives the filter is, once stripped and lowercased, no greeting and at least
      two characters long. */
  lemma AcceptedNamePlausible(name: string)
    requires !NameRejected(name)
    ensures |Strip(name)| >= 2 && forall g :: g in Greetings ==> Lower(Strip(name)) != g
  {
  }

  /** A preference that survives the filter has at least five characters and contains no junk phrase. */
  lemma AcceptedPreferencePlausible(pref: string)
    requires !PreferenceRejected(pref)
    ensures |Lower(pref)| >= 5 && |pref| >= 3
    ensures forall j, i :: 0 <= j < |Junk| ==> !OccursAt(Lower(pref), Junk[j], i)
  {
    var low := Lower(pref);
    forall j, i | 0 <= j < |Junk| && OccursAt(low, Junk[j], i) ensures false {
      ContainsAt(low, Junk[j], i);
    }
  }

  /** A greeting, in whatever case, is rejected as a name whatever whitespace surrounds it. */
  lemma PaddedGreetingRejected(pre: string, name: string, post: string)
    requires AllSpace(pre) && AllSpace(post)
    requires name != [] && !IsSpace(name[0]) && !IsSpace(name[|name| - 1])
    requires Lower(name) in Greetings
    ensures NameRejected(pre + name + post)
  {
    StripSurrounded(pre, name, post);
  }

  /** A greeting followed by an ideographic space, as Chinese input methods type it, is rejected. */
  lemma IdeographicSpaceRejected()
    ensures NameRejected("\U{4F60}\U{597D}\U{3000}")
  {
    var hello := "\U{4F60}\U{597D}";
    LowerUnchanged(hello);
    assert hello == Greetings[6];
    assert hello + ['\U{3000}'] == "\U{4F60}\U{597D}\U{3000}";
    StripSpaceAfter(hello, '\U{3000}');
  }

  /** So is a greeting followed by a separator control character. */
  lemma SeparatorPaddedRejected()
    ensures NameRejected("hi\U{1C}")
  {
    LowerUnchanged("hi");
    assert "hi" == Greetings[1];
    assert "hi" + ['\U{1C}'] == "hi\U{1C}";
    StripSpaceAfter("hi", '\U{1C}');
  }

  /** Each dotted capital I lower-cases to two code points, so three of them make a preference
      long enough to keep. */
  lemma DottedCapitalsKept()
    ensures !PreferenceRejected("\U{0130}\U{0130}\U{0130}")
  {
    var low := Lower("\U{0130}\U{0130}\U{0130}");
    assert Lower("\U{0130}") == "i\U{0307}";
    assert Lower("\U{0130}\U{0130}") == "i\U{0307}" + Lower("\U{0130}");
    assert low == "i\U{0307}" + Lower("\U{0130}\U{0130}");
    forall j | 0 <= j < |Junk| ensures !Contains(low, Junk[j]) {
      NotContainsFirst(low, Junk[j]);
    }
  }

  lemma StripNova()
    ensures Strip("NOVA") == "NOVA"
  {
    StripUnpadded("NOVA");
  }

  lemma LowerNova()
    ensures Lower("NOVA") == Greetings[5]
  {
    assert Lower("A") == "a";
    assert Lower("VA") == "v" + Lower("A");
    assert Lower("OVA") == "o" + Lower("VA");
  }

  /** The agent's own name is rejected whatever its case. */
  lemma OwnNameRejected()
    ensures NameRejected("NOVA")
  {
    StripNova();
    LowerNova();
  }

  class DynamicNeuralNetwork {
    const config: ModelConfig
    /** `min_complexity` and `max_complexity`, which the settings file does not define. */
    const minComplexity: real
    const maxComplexity: real
    var complexityLevel: real

    constructor (fastModel: string, temperature: real, fastTemperature: real,
                 minComplexity: real, maxComplexity: real)
      ensures config == ModelConfig(ModelName, fastModel, temperature, fastTemperature, ContextWindow)
      ensures this.minComplexity == minComplexity && this.maxComplexity == maxComplexity
      ensures complexityLevel == InitialComplexity
    {
      config := ModelConfig(ModelName, fastModel, temperature, fastTemperature, ContextWindow);
      this.minComplexity := minComplexity;
      this.maxComplexity := maxComplexity;
      complexityLevel := InitialComplexity;
    }

    method Evolve(direction: string)
      modifies this`complexityLevel
      ensures complexityLevel == Evolved(old(complexityLevel), direction, minComplexity, maxComplexity)
    {
      if direction == "EXPAND" {
        complexityLevel := Hormones.Min(maxComplexity, complexityLevel + 1.0);
      } else if direction == "PRUNE" {
        complexityLevel := Hormones.Max(minComplexity, complexityLevel - 1.0);
      }
    }

    /** `_build_system_prompt`, given the reported stress and reward. */
    method BuildSystemPrompt(stress: real, reward: real) returns (prompt: string)
      ensures prompt == SystemPrompt(complexityLevel, stress, reward)
    {
      prompt := BaseInstruction;
      if complexityLevel > 5.0 {
        prompt := prompt + DeepClause;
      } else {
        prompt := prompt + ConciseClause;
      }
      if stress > 0.7 {
        prompt := prompt + StressedSuffix;
      } else if reward > 0.7 {
        prompt := prompt + EuphoricSuffix;
      } else if stress < 0.3 && reward > 0.4 {
        prompt := prompt + CalmSuffix;
      }
    }

    /** The request `forward` sends: the fast model and temperature exactly when `useFast`. */
    function Request(userInput: string, systemPrompt: string, useFast: bool, stream: bool): (r: ChatRequest)
      ensures useFast ==> r.model == config.fastModel && r.temperature == config.fastTemperature
      ensures !useFast ==> r.model == config.modelName && r.temperature == config.temperature
      ensures r.messages == [Message("system", systemPrompt), Message("user", userInput)]
      ensures r.stream == stream && r.numCtx == config.contextWindow
    {
      var model := if useFast then config.fastModel else config.modelName;
      var temp := if useFast then config.fastTemperature else config.temperature;
      ChatRequest(model, [Message("system", systemPrompt), Message("user", userInput)], stream, temp,
                  config.contextWindow)
    }
  }
}
