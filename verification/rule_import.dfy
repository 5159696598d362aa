/**
 * The offline script that turns the gitleaks rule tables into rules.json
 * (source/background/plugins/secretsleak/update_rules.py): rules without a pattern or without
 * keywords are skipped, the catch-all `generic-api-key` rule is dropped, and every other rule
 * is reshaped into the five fields the extension reads. Indexing a table that lacks `id` or
 * `description` raises `KeyError` and ends the script.
 */
module RuleImport {
  import opened Wrappers
  import opened SecretRules

  /** One `[[rules]]` table; each field is absent or present. */
  datatype TomlRule = TomlRule(regex: Option<string>, id: Option<string>, keywords: Option<seq<string>>,
                               description: Option<string>, entropy: Option<real>)

  /** The `KeyError` raised by indexing a table that lacks `key`. */
  datatype KeyError = KeyError(key: string)

  /** A table the loop does not skip at once: it has both `regex` and `keywords`. */
  predicate Considered(t: TomlRule) {
    t.regex.Some? && t.keywords.Some?
  }

  /** A considered table that makes the script fail. */
  predicate Broken(t: TomlRule) {
    Considered(t) && (t.id.None? || t.description.None?)
  }

  /** The key whose absence the script trips over first: `id` is read before `description`. */
  function MissingKey(t: TomlRule): KeyError {
    if t.id.None? then KeyError("id") else KeyError("description")
  }

  /** A table that reaches `result.append`. */
  predicate Kept(t: TomlRule) {
    Considered(t) && t.id.Some? && t.description.Some? && t.id.value != "generic-api-key"
  }

  /** The entry written for a kept table. */
  function Reshape(t: TomlRule): (r: RawRule)
    requires Kept(t)
    ensures r.id == t.id.value && r.description == t.description.value && r.regex == t.regex.value
    ensures r.keywords == t.keywords.value && r.entropy == t.entropy
  {
    RawRule(t.id.value, t.description.value, t.regex.value, t.keywords.value, t.entropy)
  }

  /** One turn of the loop over an outcome so far. */
  function ImportStep(acc: Result<seq<RawRule>, KeyError>, t: TomlRule): Result<seq<RawRule>, KeyError> {
    if acc.Failure? || !Considered(t) then acc
    else if Broken(t) then Failure(MissingKey(t))
    else if Kept(t) then Success(acc.value + [Reshape(t)])
    else acc
  }

  /** The loop over `rules["rules"]`. */
  function Imported(rules: seq<TomlRule>): Result<seq<RawRule>, KeyError>
    decreases |rules|
  {
    if rules == [] then Success([])
    else ImportStep(Imported(rules[..|rules| - 1]), rules[|rules| - 1])
  }

  /** The independent statement of what the script keeps: the kept tables, reshaped, in input order. */
  function KeptRules(rules: seq<TomlRule>): seq<RawRule>
    decreases |rules|
  {
    if rules == [] then []
    else if Kept(rules[0]) then [Reshape(rules[0])] + KeptRules(rules[1..])
    else KeptRules(rules[1..])
  }

  /** Keeping commutes with concatenation: the output keeps the input order. */
  lemma {:induction false} KeptRulesAppend(a: seq<TomlRule>, b: seq<TomlRule>)
    ensures KeptRules(a + b) == KeptRules(a) + KeptRules(b)
    decreases |a|
  {
    if a == [] {
      assert a + b == b;
    } else {
      assert (a + b)[0] == a[0] && (a + b)[1..] == a[1..] + b;
      KeptRulesAppend(a[1..], b);
    }
  }

  /** Every output entry is a kept table reshaped, so none is `generic-api-key` and each carries its table's entropy. */
  lemma {:induction false} KeptRulesSpec(rules: seq<TomlRule>)
    ensures forall o :: o in KeptRules(rules) <==> exists i :: 0 <= i < |rules| && Kept(rules[i]) && o == Reshape(rules[i])
    ensures forall o :: o in KeptRules(rules) ==> o.id != "generic-api-key"
    decreases |rules|
  {
    if rules != [] {
      KeptRulesSpec(rules[1..]);
      forall o ensures o in KeptRules(rules) <==> exists i :: 0 <= i < |rules| && Kept(rules[i]) && o == Reshape(rules[i]) {
        if o in KeptRules(rules[1..]) {
          var i :| 0 <= i < |rules[1..]| && Kept(rules[1..][i]) && o == Reshape(rules[1..][i]);
          assert rules[i + 1] == rules[1..][i];
        }
        if exists i :: 0 <= i < |rules| && Kept(rules[i]) && o == Reshape(rules[i]) {
          var i :| 0 <= i < |rules| && Kept(rules[i]) && o == Reshape(rules[i]);
          if i > 0 {
            assert rules[1..][i - 1] == rules[i];
          }
        }
      }
    }
  }

  /**
   * The script fails exactly when some considered table lacks `id` or `description`, and
   * then with the key missing from the first such table.
   */
  lemma {:induction false} ImportedFails(rules: seq<TomlRule>)
    ensures Imported(rules).Failure? <==> exists i :: 0 <= i < |rules| && Broken(rules[i])
    ensures Imported(rules).Failure? ==> exists i :: (0 <= i < |rules| && Broken(rules[i]) &&
      (forall j :: 0 <= j < i ==> !Broken(rules[j])) && Imported(rules).error == MissingKey(rules[i]))
    decreases |rules|
  {
    if rules != [] {
      var n := |rules| - 1;
      ImportedFails(rules[..n]);
      forall i | 0 <= i < n ensures rules[..n][i] == rules[i] { }
    }
  }

  /** When the script succeeds, it writes exactly the kept tables, reshaped, in input order. */
  lemma {:induction false} ImportedKeeps(rules: seq<TomlRule>)
    ensures Imported(rules).Success? ==> Imported(rules).value == KeptRules(rules)
    decreases |rules|
  {
    if rules != [] {
      var n := |rules| - 1;
      ImportedKeeps(rules[..n]);
      assert rules == rules[..n] + [rules[n]];
      KeptRulesAppend(rules[..n], [rules[n]]);
    }
  }

  lemma {:induction false} FailureSticks(rules: seq<TomlRule>, k: nat)
    requires k <= |rules| && Imported(rules[..k]).Failure?
    ensures Imported(rules) == Imported(rules[..k])
    decreases |rules| - k
  {
    if k < |rules| {
      assert rules[..k + 1][..k] == rules[..k];
      FailureSticks(rules, k + 1);
    } else {
      assert rules[..k] == rules;
    }
  }

  /**
   * The script's loop, `document` being the parsed configuration's `rules` array when it has
   * one: a missing array is itself a `KeyError`.
   */
  method ImportRules(document: Option<seq<TomlRule>>) returns (r: Result<seq<RawRule>, KeyError>)
    ensures document.None? ==> r == Failure(KeyError("rules"))
    ensures document.Some? ==> r == Imported(document.value)
  {
    if document.None? {
      return Failure(KeyError("rules"));
    }
    var rules := document.value;
    var result: seq<RawRule> := [];
    var i := 0;
    while i < |rules|
      invariant 0 <= i <= |rules|
      invariant Imported(rules[..i]) == Success(result)
    {
      var rule := rules[i];
      assert rules[..i + 1][..i] == rules[..i];
      if rule.regex.None? || rule.keywords.None? {
        i := i + 1;
        continue;
      }
      if rule.id.None? {
        FailureSticks(rules, i + 1);
        return Failure(KeyError("id"));
      }
      if rule.description.None? {
        FailureSticks(rules, i + 1);
        return Failure(KeyError("description"));
      }
      var rid := rule.id.value;
      if rid == "generic-api-key" {
        i := i + 1;
        continue;
      }
      result := result + [RawRule(rid, rule.description.value, rule.regex.value, rule.keywords.value, rule.entropy)];
      i := i + 1;
    }
    assert rules[..i] == rules;
    r := Success(result);
  }
}
