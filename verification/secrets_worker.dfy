/**
 * `findSecrets` of the secrets-leak worker (source/background/plugins/secretsleak/secretsWorker.ts):
 * decode a response chunk, look up the rules of every keyword the automaton finds, run each
 * rule at most once, and keep the matches that are long enough and, where the rule asks for
 * it, random enough.
 */
module SecretsWorker {
  import opened Wrappers
  import opened OrderedMaps
  import opened SecretRules

  /** `FoundSecret`. */
  datatype FoundSecret = FoundSecret(ruleId: string, description: string, secret: string)

  /** `if (rule.entropy)`: a threshold applies when it is present and not 0. */
  predicate EntropyGated(threshold: Option<real>) {
    threshold.Some? && threshold.value != 0.0
  }

  /**
   * What running one rule on the body contributes: a non-empty match, unless its entropy
   * falls below the rule's threshold.
   */
  function Verdict(rule: RawRule, body: string, find: (string, string) -> string, log2: real -> real): (v: Option<FoundSecret>)
    ensures v.Some? <==> (find(rule.regex, body) != [] &&
      (EntropyGated(rule.entropy) ==> Entropy(find(rule.regex, body), log2) >= rule.entropy.value))
    ensures v.Some? ==> v.value == FoundSecret(rule.id, rule.description, find(rule.regex, body))
  {
    match Matched(find(rule.regex, body))
    case None => None
    case Some(secret) =>
      if EntropyGated(rule.entropy) && Entropy(secret, log2) < rule.entropy.value then None
      else Some(FoundSecret(rule.id, rule.description, secret))
  }

  function Found(v: Option<FoundSecret>): seq<FoundSecret> {
    match v
    case None => []
    case Some(f) => [f]
  }

  /** The rule positions listed under the found keywords of one match, in order; an unindexed keyword adds none. */
  function KeywordCandidates(keywords: seq<string>, index: RulesIndex): seq<nat>
    decreases |keywords|
  {
    if keywords == [] then []
    else
      var n := |keywords| - 1;
      KeywordCandidates(keywords[..n], index) + (if keywords[n] in index.entries then index.entries[keywords[n]] else [])
  }

  /** The rule positions the scan visits, match by match. */
  function Candidates(matches: seq<seq<string>>, index: RulesIndex): seq<nat>
    decreases |matches|
  {
    if matches == [] then []
    else Candidates(matches[..|matches| - 1], index) + KeywordCandidates(matches[|matches| - 1], index)
  }

  ghost predicate Fits(cands: seq<nat>, ruleCount: nat) {
    forall i :: 0 <= i < |cands| ==> cands[i] < ruleCount
  }

  lemma {:induction false} CandidatesFit(matches: seq<seq<string>>, index: RulesIndex, ruleCount: nat)
    requires IndexFits(index, ruleCount)
    ensures Fits(Candidates(matches, index), ruleCount)
    decreases |matches|
  {
    if matches != [] {
      CandidatesFit(matches[..|matches| - 1], index, ruleCount);
      KeywordCandidatesFit(matches[|matches| - 1], index, ruleCount);
    }
  }

  lemma {:induction false} KeywordCandidatesFit(keywords: seq<string>, index: RulesIndex, ruleCount: nat)
    requires IndexFits(index, ruleCount)
    ensures Fits(KeywordCandidates(keywords, index), ruleCount)
    decreases |keywords|
  {
    if keywords != [] {
      var n := |keywords| - 1;
      KeywordCandidatesFit(keywords[..n], index, ruleCount);
      if keywords[n] in index.entries {
        var e := index.entries[keywords[n]];
        assert forall i :: 0 <= i < |e| ==> e[i] in e;
      }
    }
  }

  /** The scan's state: the ids in `testedRules`, the rule positions run so far, and `result`. */
  datatype Scan = Scan(tested: set<string>, runs: seq<nat>, found: seq<FoundSecret>)

  /** One candidate: skipped when its id was tested, otherwise marked, run and judged. */
  function ScanStep(s: Scan, rule: nat, rules: seq<RawRule>, body: string, find: (string, string) -> string, log2: real -> real): Scan
    requires rule < |rules|
  {
    if rules[rule].id in s.tested then s
    else Scan(s.tested + {rules[rule].id}, s.runs + [rule], s.found + Found(Verdict(rules[rule], body, find, log2)))
  }

  function ScanOver(s: Scan, cands: seq<nat>, rules: seq<RawRule>, body: string, find: (string, string) -> string, log2: real -> real): Scan
    requires Fits(cands, |rules|)
    decreases |cands|
  {
    if cands == [] then s
    else
      var n := |cands| - 1;
      ScanStep(ScanOver(s, cands[..n], rules, body, find, log2), cands[n], rules, body, find, log2)
  }

  lemma {:induction false} ScanAppend(s: Scan, a: seq<nat>, b: seq<nat>, rules: seq<RawRule>, body: string, find: (string, string) -> string, log2: real -> real)
    requires Fits(a, |rules|) && Fits(b, |rules|)
    ensures Fits(a + b, |rules|)
    ensures ScanOver(s, a + b, rules, body, find, log2) == ScanOver(ScanOver(s, a, rules, body, find, log2), b, rules, body, find, log2)
    decreases |b|
  {
    if b == [] {
      assert a + b == a;
    } else {
      var n := |b| - 1;
      ScanAppend(s, a, b[..n], rules, body, find, log2);
      assert (a + b)[..|a + b| - 1] == a + b[..n];
    }
  }

  /** The scan over a decoded body whose keyword matches are `matches`, from an empty state. */
  function FinalScan(rules: seq<RawRule>, index: RulesIndex, matches: seq<seq<string>>, body: string,
                     find: (string, string) -> string, log2: real -> real): Scan
    requires IndexFits(index, |rules|)
  {
    CandidatesFit(matches, index, |rules|);
    ScanOver(Scan({}, [], []), Candidates(matches, index), rules, body, find, log2)
  }

  /** `findSecrets`' answer. */
  function Findings(rules: seq<RawRule>, index: RulesIndex, matches: seq<seq<string>>, body: string,
                    find: (string, string) -> string, log2: real -> real): seq<FoundSecret>
    requires IndexFits(index, |rules|)
  {
    FinalScan(rules, index, matches, body, find, log2).found
  }

  /** The ids of the rules run. */
  function IdsOf(runs: seq<nat>, rules: seq<RawRule>): set<string> {
    set j | j in runs && j < |rules| :: rules[j].id
  }

  /** The findings of a run of rules, one verdict after another. */
  function Harvest(runs: seq<nat>, rules: seq<RawRule>, body: string, find: (string, string) -> string, log2: real -> real): seq<FoundSecret>
    requires Fits(runs, |rules|)
    decreases |runs|
  {
    if runs == [] then []
    else
      var n := |runs| - 1;
      Harvest(runs[..n], rules, body, find, log2) + Found(Verdict(rules[runs[n]], body, find, log2))
  }

  /** The state the scan keeps: the tested ids are the ids run, each run once, and the result is the harvest. */
  ghost predicate Consistent(s: Scan, rules: seq<RawRule>, body: string, find: (string, string) -> string, log2: real -> real) {
    && Fits(s.runs, |rules|)
    && s.tested == IdsOf(s.runs, rules)
    && (forall a, b :: 0 <= a < b < |s.runs| ==> rules[s.runs[a]].id != rules[s.runs[b]].id)
    && s.found == Harvest(s.runs, rules, body, find, log2)
  }

  lemma StepConsistent(s: Scan, rule: nat, rules: seq<RawRule>, body: string, find: (string, string) -> string, log2: real -> real)
    requires rule < |rules| && Consistent(s, rules, body, find, log2)
    ensures Consistent(ScanStep(s, rule, rules, body, find, log2), rules, body, find, log2)
    ensures rules[rule].id in ScanStep(s, rule, rules, body, find, log2).tested
    ensures var t := ScanStep(s, rule, rules, body, find, log2);
      t.runs == s.runs || t.runs == s.runs + [rule]
  {
    var id := rules[rule].id;
    if id !in s.tested {
      var runs := s.runs + [rule];
      assert runs[..|s.runs|] == s.runs;
      assert IdsOf(runs, rules) == IdsOf(s.runs, rules) + {id};
      forall a | 0 <= a < |s.runs| ensures rules[runs[a]].id != id {
        assert runs[a] in s.runs;
      }
    }
  }

  /** The scan keeps its state consistent. */
  lemma {:induction false} ScanConsistent(s: Scan, cands: seq<nat>, rules: seq<RawRule>, body: string, find: (string, string) -> string, log2: real -> real)
    requires Fits(cands, |rules|) && Consistent(s, rules, body, find, log2)
    ensures Consistent(ScanOver(s, cands, rules, body, find, log2), rules, body, find, log2)
    decreases |cands|
  {
    if cands != [] {
      var n := |cands| - 1;
      ScanConsistent(s, cands[..n], rules, body, find, log2);
      StepConsistent(ScanOver(s, cands[..n], rules, body, find, log2), cands[n], rules, body, find, log2);
    }
  }

  /** The scan only appends to the runs, and only candidates. */
  lemma {:induction false} ScanRuns(s: Scan, cands: seq<nat>, rules: seq<RawRule>, body: string, find: (string, string) -> string, log2: real -> real)
    requires Fits(cands, |rules|)
    ensures var t := ScanOver(s, cands, rules, body, find, log2);
      && |s.runs| <= |t.runs| && t.runs[..|s.runs|] == s.runs
      && (forall j :: |s.runs| <= j < |t.runs| ==> t.runs[j] in cands)
    decreases |cands|
  {
    if cands != [] {
      var n := |cands| - 1;
      ScanRuns(s, cands[..n], rules, body, find, log2);
      var prev := ScanOver(s, cands[..n], rules, body, find, log2);
      var t := ScanOver(s, cands, rules, body, find, log2);
      assert t == ScanStep(prev, cands[n], rules, body, find, log2);
      forall j | |s.runs| <= j < |t.runs| ensures t.runs[j] in cands {
        if j < |prev.runs| {
          assert t.runs[j] == prev.runs[j] && prev.runs[j] in cands[..n];
        }
      }
    }
  }

  /** Every candidate's id ends up tested, and nothing tested is forgotten. */
  lemma {:induction false} ScanTested(s: Scan, cands: seq<nat>, rules: seq<RawRule>, body: string, find: (string, string) -> string, log2: real -> real)
    requires Fits(cands, |rules|)
    ensures var t := ScanOver(s, cands, rules, body, find, log2);
      && s.tested <= t.tested
      && (forall i :: 0 <= i < |cands| ==> rules[cands[i]].id in t.tested)
    decreases |cands|
  {
    if cands != [] {
      var n := |cands| - 1;
      ScanTested(s, cands[..n], rules, body, find, log2);
      var t := ScanOver(s, cands, rules, body, find, log2);
      forall i | 0 <= i < n ensures rules[cands[i]].id in t.tested {
        assert cands[i] == cands[..n][i];
      }
    }
  }

  /** Each finding of a harvest is the verdict of one of the rules run. */
  lemma {:induction false} HarvestSpec(runs: seq<nat>, rules: seq<RawRule>, body: string, find: (string, string) -> string, log2: real -> real)
    requires Fits(runs, |rules|)
    ensures forall f :: f in Harvest(runs, rules, body, find, log2) ==>
      exists j :: 0 <= j < |runs| && Verdict(rules[runs[j]], body, find, log2) == Some(f)
    decreases |runs|
  {
    if runs != [] {
      var n := |runs| - 1;
      HarvestSpec(runs[..n], rules, body, find, log2);
      forall f | f in Harvest(runs, rules, body, find, log2)
        ensures exists j :: 0 <= j < |runs| && Verdict(rules[runs[j]], body, find, log2) == Some(f)
      {
        if f in Harvest(runs[..n], rules, body, find, log2) {
          var j :| 0 <= j < n && Verdict(rules[runs[..n][j]], body, find, log2) == Some(f);
          assert runs[j] == runs[..n][j];
        } else {
          assert Verdict(rules[runs[n]], body, find, log2) == Some(f);
        }
      }
    }
  }

  /** No rule id is reported twice. */
  ghost predicate DistinctRuleIds(found: seq<FoundSecret>) {
    forall a, b :: 0 <= a < b < |found| ==> found[a].ruleId != found[b].ruleId
  }

  /** Rules run under distinct ids yield findings under distinct ids. */
  lemma {:induction false} HarvestDistinct(runs: seq<nat>, rules: seq<RawRule>, body: string, find: (string, string) -> string, log2: real -> real)
    requires Fits(runs, |rules|)
    requires forall a, b :: 0 <= a < b < |runs| ==> rules[runs[a]].id != rules[runs[b]].id
    ensures DistinctRuleIds(Harvest(runs, rules, body, find, log2))
    decreases |runs|
  {
    if runs != [] {
      var n := |runs| - 1;
      var prefix := runs[..n];
      forall a, b | 0 <= a < b < n ensures rules[prefix[a]].id != rules[prefix[b]].id {
        assert prefix[a] == runs[a] && prefix[b] == runs[b];
      }
      HarvestDistinct(prefix, rules, body, find, log2);
      HarvestSpec(prefix, rules, body, find, log2);
      var id := rules[runs[n]].id;
      var before := Harvest(prefix, rules, body, find, log2);
      var v := Verdict(rules[runs[n]], body, find, log2);
      var h := Harvest(runs, rules, body, find, log2);
      assert h == before + Found(v);
      if v.Some? {
        var x := v.value;
        assert x.ruleId == id;
        assert h == before + [x];
        forall a, b | 0 <= a < b < |h| ensures h[a].ruleId != h[b].ruleId {
          assert h[a] == before[a];
          if b < |before| {
            assert h[b] == before[b];
          } else {
            assert h[b] == x;
            assert before[a] in before;
            var j :| 0 <= j < n && Verdict(rules[prefix[j]], body, find, log2) == Some(before[a]);
            assert prefix[j] == runs[j];
          }
        }
      }
    }
  }

  /** What `findSecrets` promises first: each rule id is reported at most once. */
  lemma FindingsDistinct(rules: seq<RawRule>, index: RulesIndex, matches: seq<seq<string>>, body: string,
                         find: (string, string) -> string, log2: real -> real)
    requires IndexFits(index, |rules|)
    ensures DistinctRuleIds(Findings(rules, index, matches, body, find, log2))
  {
    var cands := Candidates(matches, index);
    CandidatesFit(matches, index, |rules|);
    var s0 := Scan({}, [], []);
    assert IdsOf([], rules) == {};
    ScanConsistent(s0, cands, rules, body, find, log2);
    var t := ScanOver(s0, cands, rules, body, find, log2);
    assert Findings(rules, index, matches, body, find, log2) == t.found == Harvest(t.runs, rules, body, find, log2);
    HarvestDistinct(t.runs, rules, body, find, log2);
  }

  /**
   * Every finding is the verdict of a rule listed under a found keyword; a chunk without
   * keyword matches yields nothing.
   */
  lemma FindingsFromCandidates(rules: seq<RawRule>, index: RulesIndex, matches: seq<seq<string>>, body: string,
                               find: (string, string) -> string, log2: real -> real)
    requires IndexFits(index, |rules|)
    ensures var r := Findings(rules, index, matches, body, find, log2);
      && (forall f :: f in r ==> exists c :: c in Candidates(matches, index) && c < |rules| && Verdict(rules[c], body, find, log2) == Some(f))
      && (matches == [] ==> r == [])
  {
    var cands := Candidates(matches, index);
    CandidatesFit(matches, index, |rules|);
    var s0 := Scan({}, [], []);
    assert IdsOf([], rules) == {};
    ScanConsistent(s0, cands, rules, body, find, log2);
    ScanRuns(s0, cands, rules, body, find, log2);
    var t := ScanOver(s0, cands, rules, body, find, log2);
    HarvestSpec(t.runs, rules, body, find, log2);
    forall f | f in t.found
      ensures exists c :: c in cands && c < |rules| && Verdict(rules[c], body, find, log2) == Some(f)
    {
      var j :| 0 <= j < |t.runs| && Verdict(rules[t.runs[j]], body, find, log2) == Some(f);
      assert t.runs[j] in cands;
    }
  }

  /**
   * The regular expressions actually run are those of rules listed under a found keyword, and
   * no rule id runs twice: a rule that found nothing, or whose match failed the entropy check,
   * is not run again when a later keyword lists it.
   */
  lemma EachRuleRunOnce(rules: seq<RawRule>, index: RulesIndex, matches: seq<seq<string>>, body: string,
                        find: (string, string) -> string, log2: real -> real)
    requires IndexFits(index, |rules|)
    ensures var t := FinalScan(rules, index, matches, body, find, log2);
      && (forall j :: 0 <= j < |t.runs| ==> t.runs[j] in Candidates(matches, index) && t.runs[j] < |rules|)
      && (forall a, b :: 0 <= a < b < |t.runs| ==> rules[t.runs[a]].id != rules[t.runs[b]].id)
  {
    var cands := Candidates(matches, index);
    CandidatesFit(matches, index, |rules|);
    var s0 := Scan({}, [], []);
    assert IdsOf([], rules) == {};
    ScanConsistent(s0, cands, rules, body, find, log2);
    ScanRuns(s0, cands, rules, body, find, log2);
  }

  /** Every rule listed under a found keyword is tested: run, or skipped because a rule with its id ran. */
  lemma FindingsTestEveryCandidate(rules: seq<RawRule>, index: RulesIndex, matches: seq<seq<string>>, body: string,
                                   find: (string, string) -> string, log2: real -> real)
    requires IndexFits(index, |rules|)
    ensures var t := FinalScan(rules, index, matches, body, find, log2);
      forall c :: c in Candidates(matches, index) && c < |rules| ==> rules[c].id in IdsOf(t.runs, rules)
  {
    var cands := Candidates(matches, index);
    CandidatesFit(matches, index, |rules|);
    assert IdsOf([], rules) == {};
    ScanConsistent(Scan({}, [], []), cands, rules, body, find, log2);
    ScanTested(Scan({}, [], []), cands, rules, body, find, log2);
    forall c | c in cands && c < |rules| ensures rules[c].id in IdsOf(FinalScan(rules, index, matches, body, find, log2).runs, rules) {
      var i :| 0 <= i < |cands| && cands[i] == c;
    }
  }

  /** The innermost `for (const rule of rules)` loop. */
  method TestRules(runtime: RegexRuntime, ruleList: seq<nat>, body: string, find: (string, string) -> string, log2: real -> real,
                   tested0: set<string>, found0: seq<FoundSecret>, ghost runs0: seq<nat>)
    returns (tested: set<string>, found: seq<FoundSecret>, ghost runs: seq<nat>)
    requires runtime.Valid() && Fits(ruleList, |runtime.rules|)
    modifies runtime
    ensures runtime.Valid()
    ensures Scan(tested, runs, found) == ScanOver(Scan(tested0, runs0, found0), ruleList, runtime.rules, body, find, log2)
  {
    tested, found, runs := tested0, found0, runs0;
    var k := 0;
    while k < |ruleList|
      invariant 0 <= k <= |ruleList| && runtime.Valid()
      invariant Scan(tested, runs, found) == ScanOver(Scan(tested0, runs0, found0), ruleList[..k], runtime.rules, body, find, log2)
    {
      var rule := ruleList[k];
      assert ruleList[..k + 1][..k] == ruleList[..k];
      var r := runtime.rules[rule];
      if r.id !in tested {
        tested := tested + {r.id};
        runs := runs + [rule];
        var secret := runtime.FindSecret(rule, body, find);
        if secret.Some? {
          var keep := true;
          if EntropyGated(r.entropy) {
            var secretEntropy := ShannonEntropy(secret.value, log2);
            if secretEntropy < r.entropy.value {
              keep := false;
            }
          }
          if keep {
            found := found + [FoundSecret(r.id, r.description, secret.value)];
          }
        }
      }
      k := k + 1;
    }
    assert ruleList[..k] == ruleList;
  }

  /** The `for (const keyword of keywordMatches[1])` loop over the keywords found at one match. */
  method TestKeywords(runtime: RegexRuntime, index: RulesIndex, keywords: seq<string>, body: string,
                      find: (string, string) -> string, log2: real -> real,
                      tested0: set<string>, found0: seq<FoundSecret>, ghost runs0: seq<nat>)
    returns (tested: set<string>, found: seq<FoundSecret>, ghost runs: seq<nat>)
    requires runtime.Valid() && IndexFits(index, |runtime.rules|)
    modifies runtime
    ensures runtime.Valid() && Fits(KeywordCandidates(keywords, index), |runtime.rules|)
    ensures Scan(tested, runs, found) == ScanOver(Scan(tested0, runs0, found0), KeywordCandidates(keywords, index), runtime.rules, body, find, log2)
  {
    ghost var s0 := Scan(tested0, runs0, found0);
    tested, found, runs := tested0, found0, runs0;
    var j := 0;
    while j < |keywords|
      invariant 0 <= j <= |keywords| && runtime.Valid()
      invariant Fits(KeywordCandidates(keywords[..j], index), |runtime.rules|)
      invariant Scan(tested, runs, found) == ScanOver(s0, KeywordCandidates(keywords[..j], index), runtime.rules, body, find, log2)
    {
      var keyword := keywords[j];
      assert keywords[..j + 1][..j] == keywords[..j];
      ghost var listed: seq<nat> := if keyword in index.entries then index.entries[keyword] else [];
      KeywordCandidatesFit(keywords[..j + 1], index, |runtime.rules|);
      assert Fits(listed, |runtime.rules|) by {
        forall i | 0 <= i < |listed| ensures listed[i] < |runtime.rules| {
          assert listed[i] in listed;
        }
      }
      ScanAppend(s0, KeywordCandidates(keywords[..j], index), listed, runtime.rules, body, find, log2);
      if keyword in index.entries {
        tested, found, runs := TestRules(runtime, index.entries[keyword], body, find, log2, tested, found, runs);
      }
      j := j + 1;
    }
    assert keywords[..j] == keywords;
  }

  /**
   * `findSecrets`, with `decode` standing for `TextDecoder.decode`, `search` for the
   * automaton's search (the keywords found at each match) and `find`/`log2` for the regular
   * expression engine and `Math.log2`.
   */
  method FindSecrets(runtime: RegexRuntime, index: RulesIndex, data: seq<bv8>, decode: seq<bv8> -> string,
                     search: string -> seq<seq<string>>, find: (string, string) -> string, log2: real -> real)
    returns (result: seq<FoundSecret>)
    requires runtime.Valid() && index == RulesMap(runtime.rules)
    modifies runtime
    ensures runtime.Valid()
    ensures IndexFits(index, |runtime.rules|) &&
      result == Findings(runtime.rules, index, search(decode(data)), decode(data), find, log2)
  {
    RulesMapFits(runtime.rules);
    var body := decode(data);
    var foundKeywords := search(body);
    var testedRules: set<string> := {};
    result := [];
    ghost var runs: seq<nat> := [];
    ghost var s0 := Scan({}, [], []);
    var i := 0;
    while i < |foundKeywords|
      invariant 0 <= i <= |foundKeywords| && runtime.Valid()
      invariant Fits(Candidates(foundKeywords[..i], index), |runtime.rules|)
      invariant Scan(testedRules, runs, result) == ScanOver(s0, Candidates(foundKeywords[..i], index), runtime.rules, body, find, log2)
    {
      assert foundKeywords[..i + 1][..i] == foundKeywords[..i];
      ghost var done := Candidates(foundKeywords[..i], index);
      testedRules, result, runs := TestKeywords(runtime, index, foundKeywords[i], body, find, log2, testedRules, result, runs);
      ScanAppend(s0, done, KeywordCandidates(foundKeywords[i], index), runtime.rules, body, find, log2);
      i := i + 1;
    }
    assert foundKeywords[..i] == foundKeywords;
    CandidatesFit(foundKeywords, index, |runtime.rules|);
  }
}
