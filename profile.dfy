/**
 * The user profile (`ProfileManager` in core/memory_system.py): a name, a list of facts without
 * repetitions, and any other keys set through `update`; every change is followed by a write of
 * the profile file, which can fail. The file is modelled by what it holds: `None` when it does not
 * exist.
 */
module Profile {
  import opened Options
  import opened Strings

  const DefaultName := "Nova"
  const NoFacts := "none yet"
  /** The core prompt shows only the most recent facts. */
  const RecentFacts: nat := 5

  /** What the profile file holds: a missing key is `None`. */
  datatype StoredProfile = StoredProfile(name: Option<string>, facts: Option<seq<string>>,
                                         extras: map<string, string>)

  /** The profile in memory; `extras` holds every key other than "name" and "facts". */
  datatype ProfileData = ProfileData(name: string, facts: seq<string>, extras: map<string, string>)

  /** `_load`: the defaults stand in for a missing file and for each missing key. */
  function Load(file: Option<StoredProfile>): (p: ProfileData)
    ensures file.None? ==> p == ProfileData(DefaultName, [], map[])
    ensures file.Some? ==>
              && p.name == file.value.name.GetOr(DefaultName)
              && p.facts == file.value.facts.GetOr([])
              && p.extras == file.value.extras
  {
    match file
    case None => ProfileData(DefaultName, [], map[])
    case Some(f) =>
      var name := if f.name.None? then DefaultName else f.name.value;
      var facts := if f.facts.None? then [] else f.facts.value;
      ProfileData(name, facts, f.extras)
  }

  /** `data[key] = value` for a key other than "facts". */
  function WithKey(p: ProfileData, key: string, value: string): (r: ProfileData)
    requires key != "facts"
    ensures key == "name" ==> r.name == value && r.extras == p.extras
    ensures key != "name" ==> r.name == p.name && r.extras == p.extras[key := value]
    ensures r.facts == p.facts
  {
    if key == "name" then p.(name := value) else p.(extras := p.extras[key := value])
  }

  /** `add_fact` on the data: append the fact unless it is already listed. */
  function WithFact(p: ProfileData, fact: string): (r: ProfileData)
    ensures fact in r.facts
    ensures forall f :: f in r.facts <==> f in p.facts || f == fact
    ensures r.name == p.name && r.extras == p.extras
    ensures fact in p.facts ==> r == p
    ensures fact !in p.facts ==> r.facts == p.facts + [fact]
  {
    if fact in p.facts then p else p.(facts := p.facts + [fact])
  }

  ghost predicate NoDuplicates(facts: seq<string>)
  {
    forall i, j :: 0 <= i < j < |facts| ==> facts[i] != facts[j]
  }

  lemma WithFactIdempotent(p: ProfileData, fact: string)
    ensures WithFact(WithFact(p, fact), fact) == WithFact(p, fact)
  {
  }

  /** Adding facts never introduces a repetition. */
  lemma WithFactNoDuplicates(p: ProfileData, fact: string)
    requires NoDuplicates(p.facts)
    ensures NoDuplicates(WithFact(p, fact).facts)
  {
    if fact !in p.facts {
      var r := WithFact(p, fact).facts;
      forall i, j | 0 <= i < j < |r| ensures r[i] != r[j] {
        if j == |p.facts| {
          assert r[i] == p.facts[i];
        }
      }
    }
  }

  /** A sequence of `add_fact` calls. */
  function WithFacts(p: ProfileData, facts: seq<string>): ProfileData
    decreases |facts|
  {
    if |facts| == 0 then p else WithFact(WithFacts(p, facts[..|facts| - 1]), facts[|facts| - 1])
  }

  /** However often a fact is added, it is listed exactly once. */
  lemma {:induction false} WithFactsCountsOnce(p: ProfileData, facts: seq<string>, fact: string)
    requires NoDuplicates(p.facts)
    requires fact in facts || fact in p.facts
    ensures NoDuplicates(WithFacts(p, facts).facts)
    ensures multiset(WithFacts(p, facts).facts)[fact] == 1
    decreases |facts|
  {
    if |facts| == 0 {
      CountOne(p.facts, fact);
    } else {
      var init := facts[..|facts| - 1];
      var last := facts[|facts| - 1];
      var q := WithFacts(p, init);
      if fact in init || fact in p.facts {
        WithFactsCountsOnce(p, init, fact);
      } else {
        assert fact == last;
        WithFactsNoDuplicates(p, init);
      }
      WithFactNoDuplicates(q, last);
      CountOne(WithFacts(p, facts).facts, fact);
    }
  }

  lemma {:induction false} WithFactsNoDuplicates(p: ProfileData, facts: seq<string>)
    requires NoDuplicates(p.facts)
    ensures NoDuplicates(WithFacts(p, facts).facts)
    decreases |facts|
  {
    if |facts| > 0 {
      WithFactsNoDuplicates(p, facts[..|facts| - 1]);
      WithFactNoDuplicates(WithFacts(p, facts[..|facts| - 1]), facts[|facts| - 1]);
    }
  }

  /** In a list without repetitions, a listed element is counted once. */
  lemma {:induction false} CountOne(xs: seq<string>, x: string)
    requires NoDuplicates(xs) && x in xs
    ensures multiset(xs)[x] == 1
    decreases |xs|
  {
    if xs[0] == x {
      assert x !in xs[1..];
      assert xs == [xs[0]] + xs[1..];
    } else {
      assert NoDuplicates(xs[1..]) by {
        forall i, j | 0 <= i < j < |xs[1..]| ensures xs[1..][i] != xs[1..][j] {
          assert xs[1..][i] == xs[i + 1] && xs[1..][j] == xs[j + 1];
        }
      }
      CountOne(xs[1..], x);
      assert xs == [xs[0]] + xs[1..];
    }
  }

  /** `get_core_prompt`. */
  function CorePrompt(p: ProfileData): string
  {
    var factsText := if p.facts == [] then NoFacts else Join(", ", PyTail(p.facts, RecentFacts));
    "Your name is " + p.name + ". Known user facts: " + factsText + "."
  }

  /** The prompt opens by naming the agent, and says "none yet" when no fact is known. */
  lemma CorePromptNames(p: ProfileData)
    ensures "Your name is " + p.name <= CorePrompt(p)
    ensures p.facts == [] ==> CorePrompt(p) == "Your name is " + p.name + ". Known user facts: none yet."
  {
    var head := "Your name is " + p.name;
    assert CorePrompt(p) == head + (". Known user facts: " +
      (if p.facts == [] then NoFacts else Join(", ", PyTail(p.facts, RecentFacts))) + ".");
  }

  /** The prompt quotes each of the five most recent facts. */
  lemma CorePromptQuotesRecent(p: ProfileData, k: nat)
    requires |p.facts| - RecentFacts <= k < |p.facts|
    ensures Contains(CorePrompt(p), p.facts[k])
  {
    var recent := PyTail(p.facts, RecentFacts);
    var off := |p.facts| - |recent|;
    assert recent[k - off] == p.facts[k];
    var i := JoinPart(", ", recent, k - off);
    var prefix := "Your name is " + p.name + ". Known user facts: ";
    var joined := Join(", ", recent);
    assert CorePrompt(p) == prefix + joined + ".";
    assert CorePrompt(p)[|prefix| + i..|prefix| + i + |p.facts[k]|] == joined[i..i + |p.facts[k]|];
    ContainsAt(CorePrompt(p), p.facts[k], |prefix| + i);
  }

  class ProfileManager {
    var data: ProfileData
    /** The last profile written to the file by this manager, if any. */
    var saved: Option<ProfileData>

    constructor (file: Option<StoredProfile>)
      ensures data == Load(file) && saved == None
    {
      data := Load(file);
      saved := None;
    }

    /** `update`: set the key and write the file; `writeOk` says whether the write succeeds. A
        failed write raises after the data has changed. */
    method Update(key: string, value: string, writeOk: bool) returns (raised: bool)
      requires key != "facts"
      modifies this
      ensures data == WithKey(old(data), key, value)
      ensures raised <==> !writeOk
      ensures saved == if writeOk then Some(data) else old(saved)
    {
      if key == "name" {
        data := data.(name := value);
      } else {
        data := data.(extras := data.extras[key := value]);
      }
      raised := !writeOk;
      if writeOk {
        saved := Some(data);
      }
    }

    /** `add_fact`: the file is written only when the fact is new; a failed write raises after the
        fact has been appended. */
    method AddFact(fact: string, writeOk: bool) returns (raised: bool)
      modifies this
      ensures data == WithFact(old(data), fact)
      ensures raised <==> fact !in old(data.facts) && !writeOk
      ensures saved == if fact !in old(data.facts) && writeOk then Some(data) else old(saved)
    {
      raised := false;
      if fact !in data.facts {
        data := data.(facts := data.facts + [fact]);
        if writeOk {
          saved := Some(data);
        } else {
          raised := true;
        }
      }
    }

    /** `get_core_prompt`; `CorePromptNames` and `CorePromptQuotesRecent`
        state what it contains. */
    function GetCorePrompt(): string
      reads this
    {
      CorePrompt(data)
    }
  }

  /** A fresh profile given "likes Python" lists it, and the core prompt quotes it. */
  lemma LikesPython()
    ensures var p := WithFact(Load(None), "likes Python");
      "likes Python" in p.facts && Contains(CorePrompt(p), "likes Python")
  {
    var p := WithFact(Load(None), "likes Python");
    assert p.facts == ["likes Python"];
    CorePromptQuotesRecent(p, 0);
  }
}
