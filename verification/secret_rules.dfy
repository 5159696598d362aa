/**
 * The rule table of the secrets-leak plugin (source/background/plugins/secretsleak/rules.ts):
 * the keyword index built from the raw rules, the keyword list the Aho-Corasick automaton is
 * built from, each rule's lazily compiled regular expression, and the Shannon entropy used to
 * filter candidate secrets.
 */
module SecretRules {
  import opened Wrappers
  import opened OrderedMaps

  /** One entry of rules.json; `entropy` is `null` or a threshold. */
  datatype RawRule = RawRule(id: string, description: string, regex: string, keywords: seq<string>, entropy: Option<real>)

  /** A keyword some rule lists, with the position of that rule in the table. */
  datatype Listing = Listing(keyword: string, rule: nat)

  /** The listings of one rule, in the order of its keywords. */
  function RuleListings(keywords: seq<string>, rule: nat): seq<Listing>
    decreases |keywords|
  {
    if keywords == [] then []
    else RuleListings(keywords[..|keywords| - 1], rule) + [Listing(keywords[|keywords| - 1], rule)]
  }

  /** All listings, rule by rule, in the order the building loop visits them. */
  function Listings(rules: seq<RawRule>): seq<Listing>
    decreases |rules|
  {
    if rules == [] then []
    else Listings(rules[..|rules| - 1]) + RuleListings(rules[|rules| - 1].keywords, |rules| - 1)
  }

  /** The keyword index: keywords in the order first set, each with the rule positions listed under it. */
  type RulesIndex = OrderedMap<seq<nat>>

  /** `rules.push(rule)` under a keyword already present, `set(keyword, [rule])` otherwise. */
  function AddListing(m: RulesIndex, l: Listing): RulesIndex {
    if l.keyword in m.entries then OrderedMap(m.order, m.entries[l.keyword := m.entries[l.keyword] + [l.rule]])
    else OrderedMap(m.order + [l.keyword], m.entries[l.keyword := [l.rule]])
  }

  function IndexOver(listings: seq<Listing>): RulesIndex
    decreases |listings|
  {
    if listings == [] then Empty()
    else AddListing(IndexOver(listings[..|listings| - 1]), listings[|listings| - 1])
  }

  /** `SECRET_LEAK_RULES_MAP`. */
  function RulesMap(rules: seq<RawRule>): RulesIndex {
    IndexOver(Listings(rules))
  }

  /** The rule positions listed under `keyword`, in listing order. */
  function RulesUnder(listings: seq<Listing>, keyword: string): seq<nat>
    decreases |listings|
  {
    if listings == [] then []
    else
      var n := |listings| - 1;
      RulesUnder(listings[..n], keyword) + (if listings[n].keyword == keyword then [listings[n].rule] else [])
  }

  /** `RAW_RULES.map(r => r.keywords).flat()`: the keywords the automaton searches for. */
  function AllKeywords(rules: seq<RawRule>): seq<string>
    decreases |rules|
  {
    if rules == [] then [] else AllKeywords(rules[..|rules| - 1]) + rules[|rules| - 1].keywords
  }

  lemma RuleListingsSpec(keywords: seq<string>, rule: nat)
    ensures |RuleListings(keywords, rule)| == |keywords|
    ensures forall j :: 0 <= j < |keywords| ==> RuleListings(keywords, rule)[j] == Listing(keywords[j], rule)
  {
    if keywords != [] {
      RuleListingsSpec(keywords[..|keywords| - 1], rule);
    }
  }

  /**
   * The index built from any run of listings: each listed keyword is a key once, and the entry
   * under it holds exactly the rules listed under it, in order.
   */
  lemma {:induction false} IndexOverSpec(listings: seq<Listing>)
    ensures WellFormed(IndexOver(listings))
    ensures forall k :: k in IndexOver(listings).entries <==> RulesUnder(listings, k) != []
    ensures forall k :: k in IndexOver(listings).entries ==> IndexOver(listings).entries[k] == RulesUnder(listings, k)
    decreases |listings|
  {
    if listings != [] {
      var n := |listings| - 1;
      IndexOverSpec(listings[..n]);
    }
  }

  /** Rule `i` is listed under `k` exactly when it lists `k`. */
  lemma {:induction false} ListingsMembers(rules: seq<RawRule>, k: string)
    ensures forall i :: i in RulesUnder(Listings(rules), k) <==> 0 <= i < |rules| && k in rules[i].keywords
    decreases |rules|
  {
    if rules != [] {
      var n := |rules| - 1;
      ListingsMembers(rules[..n], k);
      RulesUnderAppend(Listings(rules[..n]), RuleListings(rules[n].keywords, n), k);
      RuleListingsUnder(rules[n].keywords, n, k);
      forall i | 0 <= i < n
        ensures k in rules[..n][i].keywords <==> k in rules[i].keywords
      {
        assert rules[..n][i] == rules[i];
      }
    }
  }

  /** The rules listed under a keyword follow the rule order. */
  lemma {:induction false} ListingsSorted(rules: seq<RawRule>, k: string)
    ensures forall a, b :: 0 <= a < b < |RulesUnder(Listings(rules), k)| ==>
      RulesUnder(Listings(rules), k)[a] <= RulesUnder(Listings(rules), k)[b]
    decreases |rules|
  {
    if rules != [] {
      var n := |rules| - 1;
      ListingsSorted(rules[..n], k);
      ListingsMembers(rules[..n], k);
      RulesUnderAppend(Listings(rules[..n]), RuleListings(rules[n].keywords, n), k);
      RuleListingsUnder(rules[n].keywords, n, k);
      var before := RulesUnder(Listings(rules[..n]), k);
      var mine := RulesUnder(RuleListings(rules[n].keywords, n), k);
      assert forall a :: 0 <= a < |before| ==> before[a] in before && before[a] < n;
      assert forall b :: 0 <= b < |mine| ==> mine[b] in mine && mine[b] == n;
    }
  }

  lemma {:induction false} RulesUnderAppend(a: seq<Listing>, b: seq<Listing>, k: string)
    ensures RulesUnder(a + b, k) == RulesUnder(a, k) + RulesUnder(b, k)
    decreases |b|
  {
    if b == [] {
      assert a + b == a;
    } else {
      var n := |b| - 1;
      var ab := a + b;
      assert ab[..|ab| - 1] == a + b[..n];
      assert ab[|ab| - 1] == b[n];
      RulesUnderAppend(a, b[..n], k);
    }
  }

  /** A rule's own listings put it under a keyword once for every time it lists that keyword. */
  lemma {:induction false} RuleListingsUnder(keywords: seq<string>, rule: nat, k: string)
    ensures forall i :: i in RulesUnder(RuleListings(keywords, rule), k) ==> i == rule
    ensures k in keywords <==> rule in RulesUnder(RuleListings(keywords, rule), k)
    decreases |keywords|
  {
    if keywords != [] {
      var n := |keywords| - 1;
      RuleListingsUnder(keywords[..n], rule, k);
      var before := RuleListings(keywords[..n], rule);
      var all := before + [Listing(keywords[n], rule)];
      assert RuleListings(keywords, rule) == all;
      assert all[..|all| - 1] == before;
      assert RulesUnder(all, k) == RulesUnder(before, k) + (if keywords[n] == k then [rule] else []);
      assert k in keywords <==> k in keywords[..n] || keywords[n] == k by {
        assert keywords == keywords[..n] + [keywords[n]];
      }
    }
  }

  /**
   * `SECRET_LEAK_RULES_MAP`: a keyword is a key exactly when some rule lists it; each entry is
   * non-empty, holds exactly the rules listing that keyword and keeps the rule order.
   */
  lemma RulesMapSpec(rules: seq<RawRule>)
    ensures WellFormed(RulesMap(rules))
    ensures forall k :: k in RulesMap(rules).entries <==> exists i :: 0 <= i < |rules| && k in rules[i].keywords
    ensures forall k :: k in RulesMap(rules).entries ==> RulesMap(rules).entries[k] != []
    ensures forall k, i :: k in RulesMap(rules).entries ==> (i in RulesMap(rules).entries[k] <==> 0 <= i < |rules| && k in rules[i].keywords)
    ensures forall k :: k in RulesMap(rules).entries ==> forall a, b :: 0 <= a < b < |RulesMap(rules).entries[k]| ==>
      RulesMap(rules).entries[k][a] <= RulesMap(rules).entries[k][b]
  {
    var ls := Listings(rules);
    IndexOverSpec(ls);
    forall k ensures k in RulesMap(rules).entries <==> exists i :: 0 <= i < |rules| && k in rules[i].keywords {
      ListingsMembers(rules, k);
      if k in RulesMap(rules).entries {
        var i := RulesUnder(ls, k)[0];
        assert i in RulesUnder(ls, k);
      }
      if exists i :: 0 <= i < |rules| && k in rules[i].keywords {
        var i :| 0 <= i < |rules| && k in rules[i].keywords;
        assert i in RulesUnder(ls, k);
      }
    }
    forall k | k in RulesMap(rules).entries
      ensures forall i :: i in RulesMap(rules).entries[k] <==> 0 <= i < |rules| && k in rules[i].keywords
      ensures forall a, b :: 0 <= a < b < |RulesMap(rules).entries[k]| ==> RulesMap(rules).entries[k][a] <= RulesMap(rules).entries[k][b]
    {
      ListingsMembers(rules, k);
      ListingsSorted(rules, k);
    }
  }

  /** Every entry of the index names a rule of the table. */
  ghost predicate IndexFits(index: RulesIndex, ruleCount: nat) {
    forall k :: k in index.entries ==> forall i :: i in index.entries[k] ==> i < ruleCount
  }

  lemma RulesMapFits(rules: seq<RawRule>)
    ensures IndexFits(RulesMap(rules), |rules|)
  {
    forall k | k in RulesMap(rules).entries
      ensures forall i :: i in RulesMap(rules).entries[k] ==> i < |rules|
    {
      ListingsMembers(rules, k);
      IndexOverSpec(Listings(rules));
    }
  }

  lemma {:induction false} AllKeywordsSpec(rules: seq<RawRule>)
    ensures forall k :: k in AllKeywords(rules) <==> exists i :: 0 <= i < |rules| && k in rules[i].keywords
    decreases |rules|
  {
    if rules != [] {
      var n := |rules| - 1;
      AllKeywordsSpec(rules[..n]);
      forall k ensures k in AllKeywords(rules) <==> exists i :: 0 <= i < |rules| && k in rules[i].keywords {
        if k in AllKeywords(rules[..n]) {
          var i :| 0 <= i < n && k in rules[..n][i].keywords;
          assert rules[i] == rules[..n][i];
        }
        if exists i :: 0 <= i < |rules| && k in rules[i].keywords {
          var i :| 0 <= i < |rules| && k in rules[i].keywords;
          if i < n {
            assert rules[..n][i] == rules[i];
          }
        }
      }
    }
  }

  /** The automaton searches for exactly the keywords the index has entries for. */
  lemma AutomatonKeywords(rules: seq<RawRule>)
    ensures forall k :: k in AllKeywords(rules) <==> k in RulesMap(rules).entries
  {
    AllKeywordsSpec(rules);
    RulesMapSpec(rules);
  }

  /** The `forEach` over the raw rules. */
  method BuildRulesMap(rules: seq<RawRule>) returns (m: RulesIndex)
    ensures m == RulesMap(rules)
  {
    m := Empty();
    var i := 0;
    while i < |rules|
      invariant 0 <= i <= |rules|
      invariant m == IndexOver(Listings(rules[..i]))
    {
      assert rules[..i + 1][..i] == rules[..i];
      m := AddRule(m, Listings(rules[..i]), rules[i].keywords, i);
      i := i + 1;
    }
    assert rules[..i] == rules;
  }

  /** The inner `forEach` over one rule's keywords. */
  method AddRule(m0: RulesIndex, ghost before: seq<Listing>, keywords: seq<string>, rule: nat) returns (m: RulesIndex)
    requires m0 == IndexOver(before)
    ensures m == IndexOver(before + RuleListings(keywords, rule))
  {
    m := m0;
    assert keywords[..0] == [] && before + [] == before;
    var j := 0;
    while j < |keywords|
      invariant 0 <= j <= |keywords|
      invariant m == IndexOver(before + RuleListings(keywords[..j], rule))
    {
      var keyword := keywords[j];
      assert keywords[..j + 1][..j] == keywords[..j];
      ghost var done := before + RuleListings(keywords[..j], rule);
      assert before + RuleListings(keywords[..j + 1], rule) == done + [Listing(keyword, rule)];
      assert (done + [Listing(keyword, rule)])[..|done|] == done;
      if keyword in m.entries {
        m := OrderedMap(m.order, m.entries[keyword := m.entries[keyword] + [rule]]);
      } else {
        m := OrderedMap(m.order + [keyword], m.entries[keyword := [rule]]);
      }
      j := j + 1;
    }
    assert keywords[..j] == keywords;
  }

  /** `GoRegexWrapper.test`: Go's `FindString`, with an empty match reported as `null`. */
  function Matched(found: string): (r: Option<string>)
    ensures r.Some? ==> r.value == found && r.value != []
    ensures r.None? <==> found == []
  {
    if found == [] then None else Some(found)
  }

  /**
   * The regular-expression side of the table: the Go module's registry of compiled
   * expressions (ids handed out from 1 upwards) and, for each rule position, the id its
   * `findSecret` closure has cached in `lazyCompiledRegexId`.
   */
  class RegexRuntime {
    const rules: seq<RawRule>
    var patterns: seq<string>
    var lazyIds: map<nat, nat>

    /** Every cached id names a compiled expression, and that expression is the rule's own. */
    ghost predicate Valid()
      reads this
    {
      forall r :: r in lazyIds ==> r < |rules| && 1 <= lazyIds[r] <= |patterns| && patterns[lazyIds[r] - 1] == rules[r].regex
    }

    constructor(rules: seq<RawRule>)
      ensures Valid() && this.rules == rules && patterns == [] && lazyIds == map[]
    {
      this.rules := rules;
      patterns := [];
      lazyIds := map[];
    }

    /** `compileRegexGo`: the expression is registered under the next id. */
    method Compile(pattern: string) returns (id: nat)
      modifies this
      ensures patterns == old(patterns) + [pattern] && id == |patterns| && lazyIds == old(lazyIds)
    {
      patterns := patterns + [pattern];
      id := |patterns|;
    }

    /** `testStringGo` with `find` standing for Go's `FindString`. */
    method Test(id: nat, text: string, find: (string, string) -> string) returns (found: Option<string>)
      requires 1 <= id <= |patterns|
      ensures found == Matched(find(patterns[id - 1], text))
    {
      found := Matched(find(patterns[id - 1], text));
    }

    /**
     * `findSecret` of the rule at position `rule`: the first call compiles the rule's
     * expression and caches its id, later calls reuse the cached id; either way the answer
     * is the expression's match in `test`.
     */
    method FindSecret(rule: nat, test: string, find: (string, string) -> string) returns (secret: Option<string>)
      requires Valid() && rule < |rules|
      modifies this
      ensures Valid() && rule in lazyIds
      ensures secret == Matched(find(rules[rule].regex, test))
      ensures rule in old(lazyIds) ==> patterns == old(patterns) && lazyIds == old(lazyIds)
      ensures rule !in old(lazyIds) ==> patterns == old(patterns) + [rules[rule].regex] && lazyIds == old(lazyIds)[rule := |patterns|]
    {
      if rule !in lazyIds {
        var id := Compile(rules[rule].regex);
        lazyIds := lazyIds[rule := id];
      }
      secret := Test(lazyIds[rule], test, find);
    }
  }

  /** The loop of `shannonEntropy` that counts each character, keyed as `charCounts` keys them. */
  function CountsOver(data: string): OrderedMap<nat>
    decreases |data|
  {
    if data == [] then Empty()
    else
      var m := CountsOver(data[..|data| - 1]);
      var key := [data[|data| - 1]];
      Put(m, key, (if key in m.entries then m.entries[key] else 0) + 1)
  }

  /** `Math.log2(x)`, with the logarithm given as a parameter. */
  function Log2Of(log2: real -> real, x: real): real {
    log2(x)
  }

  /** The frequency of a character counted `count` times. */
  function Freq(count: nat, invLength: real): real {
    count as real * invLength
  }

  /** The term `freq · log2(freq)` of one character; nothing when `freq` is 0. */
  function Term(freq: real, log2: real -> real): real {
    if freq > 0.0 then freq * Log2Of(log2, freq) else 0.0
  }

  /** The sum `-Σ freq · log2(freq)` over the counted characters, in the order they first occur. */
  function EntropySum(keys: seq<string>, counts: map<string, nat>, invLength: real, log2: real -> real): real
    decreases |keys|
  {
    if keys == [] then 0.0
    else
      var n := |keys| - 1;
      EntropySum(keys[..n], counts, invLength, log2) - Term(Freq(if keys[n] in counts then counts[keys[n]] else 0, invLength), log2)
  }

  /** `shannonEntropy`, with `log2` standing for `Math.log2`: 0 for the empty string. */
  function Entropy(data: string, log2: real -> real): real {
    if data == [] then 0.0
    else
      var m := CountsOver(data);
      EntropySum(m.order, m.entries, 1.0 / (|data| as real), log2)
  }

  /** The counts are keyed by the characters that occur. */
  lemma CountsShape(data: string)
    ensures WellFormed(CountsOver(data))
    ensures forall k :: k in CountsOver(data).entries ==> |k| == 1
    ensures forall c :: [c] in CountsOver(data).entries <==> c in data
  {
    CountsWellFormed(data);
    CountsKeys(data);
  }

  lemma {:induction false} CountsWellFormed(data: string)
    ensures WellFormed(CountsOver(data))
    ensures forall k :: k in CountsOver(data).entries ==> |k| == 1
    decreases |data|
  {
    if data != [] {
      var n := |data| - 1;
      var m := CountsOver(data[..n]);
      var key := [data[n]];
      CountsWellFormed(data[..n]);
      PutSpec(m, key, (if key in m.entries then m.entries[key] else 0) + 1);
    }
  }

  lemma {:induction false} CountsKeys(data: string)
    ensures forall c :: [c] in CountsOver(data).entries <==> c in data
    decreases |data|
  {
    if data != [] {
      var n := |data| - 1;
      var m := CountsOver(data[..n]);
      var key := [data[n]];
      CountsKeys(data[..n]);
      assert CountsOver(data).entries == m.entries[key := (if key in m.entries then m.entries[key] else 0) + 1];
      assert data == data[..n] + [data[n]];
      forall c | c in data ensures [c] in CountsOver(data).entries {
        if c != data[n] {
          assert c in data[..n];
        }
      }
      forall c | [c] in CountsOver(data).entries ensures c in data {
        if [c] != key {
          assert c in data[..n];
        }
      }
    }
  }

  /** Each counted character holds its number of occurrences. */
  lemma {:induction false} CountsValues(data: string)
    ensures forall c :: c in data ==> [c] in CountsOver(data).entries && CountsOver(data).entries[[c]] == multiset(data)[c]
    decreases |data|
  {
    if data != [] {
      var n := |data| - 1;
      CountsValues(data[..n]);
      CountsShape(data[..n]);
      assert data == data[..n] + [data[n]];
      assert multiset(data) == multiset(data[..n]) + multiset{data[n]};
      forall c | c in data ensures [c] in CountsOver(data).entries && CountsOver(data).entries[[c]] == multiset(data)[c] {
        if c != data[n] {
          assert c in data[..n];
          assert [c] != [data[n]];
        }
      }
    }
  }

  /** A string of one repeated character has no entropy, given that `log2(1) == 0`. */
  lemma EntropyOfRepetition(data: string, log2: real -> real)
    requires data != [] && forall i :: 0 <= i < |data| ==> data[i] == data[0]
    requires Log2Of(log2, 1.0) == 0.0
    ensures Entropy(data, log2) == 0.0
  {
    RepetitionCounts(data);
    var len := |data| as real;
    var inv := 1.0 / len;
    var m := CountsOver(data);
    assert Entropy(data, log2) == EntropySum(m.order, m.entries, inv, log2);
    assert Freq(|data|, inv) == 1.0;
    assert m.order[..0] == [];
    assert EntropySum(m.order, m.entries, inv, log2) == 0.0 - Term(1.0, log2);
  }

  lemma {:induction false} RepetitionCounts(data: string)
    requires data != [] && forall i :: 0 <= i < |data| ==> data[i] == data[0]
    ensures CountsOver(data) == OrderedMap([[data[0]]], map[[data[0]] := |data|])
    decreases |data|
  {
    var n := |data| - 1;
    if n > 0 {
      RepetitionCounts(data[..n]);
    }
  }

  /** The first loop of `shannonEntropy`: count each character. */
  method CountChars(data: string) returns (charCounts: OrderedMap<nat>)
    ensures charCounts == CountsOver(data)
  {
    charCounts := Empty();
    var i := 0;
    while i < |data|
      invariant 0 <= i <= |data|
      invariant charCounts == CountsOver(data[..i])
    {
      assert data[..i + 1][..i] == data[..i];
      var key := [data[i]];
      var count := (if key in charCounts.entries then charCounts.entries[key] else 0) + 1;
      charCounts := Put(charCounts, key, count);
      i := i + 1;
    }
    assert data[..i] == data;
  }

  /** `shannonEntropy`: count the characters, then sum `-freq · log2(freq)` over the counts. */
  method ShannonEntropy(data: string, log2: real -> real) returns (entropy: real)
    ensures entropy == Entropy(data, log2)
    ensures data == [] ==> entropy == 0.0
  {
    if |data| == 0 {
      return 0.0;
    }
    var charCounts := CountChars(data);
    CountsShape(data);
    var invLength := 1.0 / (|data| as real);
    entropy := SumTerms(charCounts, invLength, log2);
  }

  /**
   * The second loop of `shannonEntropy`, over the counted characters in the order they first
   * occur. `for…in` visits the keys `"0"`–`"9"` before the others; over reals the sum does not
   * depend on the order.
   */
  method SumTerms(charCounts: OrderedMap<nat>, invLength: real, log2: real -> real) returns (entropy: real)
    requires Listed(charCounts)
    ensures entropy == EntropySum(charCounts.order, charCounts.entries, invLength, log2)
  {
    entropy := 0.0;
    var j := 0;
    while j < |charCounts.order|
      invariant 0 <= j <= |charCounts.order|
      invariant entropy == EntropySum(charCounts.order[..j], charCounts.entries, invLength, log2)
    {
      var key := charCounts.order[j];
      assert charCounts.order[..j + 1][..j] == charCounts.order[..j];
      var count := charCounts.entries[key];
      ghost var sum := entropy;
      var freq := count as real * invLength;
      if freq > 0.0 {
        entropy := entropy - freq * Log2Of(log2, freq);
      }
      assert freq == Freq(count, invLength);
      assert entropy == sum - Term(freq, log2);
      j := j + 1;
    }
    assert charCounts.order[..j] == charCounts.order;
  }
}
