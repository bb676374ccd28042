/**
 * `confluence config doctor`: the list of problems it reports for a loaded
 * profile, and its exit status. Loading the profile and printing the report
 * are outside the model; the profile is given as a dict.
 */
module ConfigDoctor {
  import opened Wrappers
  import opened Strings
  import opened JsonValues
  import Config

  const RequiredKeys: seq<string> := ["base_url", "pat"]

  const OpenAiCompatKeys: seq<string> := ["api_base", "api_key", "model"]

  /** One message per key of `keys` that `table` lacks (missing or falsy), in the order of `keys`. */
  function Missing(keys: seq<string>, table: Json, prefix: string, suffix: string): (r: seq<string>)
    ensures |r| <= |keys|
    ensures forall m :: m in r ==> exists k :: k in keys && m == prefix + k + suffix && !Truthy(GetOrNull(table, k))
    decreases |keys|
  {
    if keys == [] then []
    else
      var k := keys[|keys| - 1];
      var r := Missing(keys[..|keys| - 1], table, prefix, suffix);
      assert forall m :: m in r ==> exists j :: j in keys && m == prefix + j + suffix && !Truthy(GetOrNull(table, j)) by {
        forall m | m in r ensures exists j :: j in keys && m == prefix + j + suffix && !Truthy(GetOrNull(table, j)) {
          var j :| j in keys[..|keys| - 1] && m == prefix + j + suffix && !Truthy(GetOrNull(table, j));
          assert j in keys;
        }
      }
      r + (if Truthy(GetOrNull(table, k)) then [] else [prefix + k + suffix])
  }

  /**
   * The messages follow the keys: the messages for two runs of keys are
   * those of the first run followed by those of the second.
   */
  lemma {:induction false} MissingConcat(a: seq<string>, b: seq<string>, table: Json, prefix: string, suffix: string)
    ensures Missing(a + b, table, prefix, suffix) == Missing(a, table, prefix, suffix) + Missing(b, table, prefix, suffix)
    decreases |b|
  {
    if b == [] {
      assert a + b == a;
    } else {
      var b' := b[..|b| - 1];
      MissingConcat(a, b', table, prefix, suffix);
      assert (a + b)[..|a + b| - 1] == a + b';
      assert (a + b)[|a + b| - 1] == b[|b| - 1];
    }
  }

  /** One key gives one message exactly when the table lacks it. */
  lemma MissingOfOne(k: string, table: Json, prefix: string, suffix: string)
    ensures Missing([k], table, prefix, suffix) == if Truthy(GetOrNull(table, k)) then [] else [prefix + k + suffix]
  {
    assert [k][..0] == [];
  }

  /** `cfg.get("llm") or {}`. */
  function LlmTable(cfg: Dict): Json {
    Or(Config.ConfigValue(cfg, "llm"), JObj([]))
  }

  /**
   * `(llm.get("provider") or "").strip().lower()`; None when Python would
   * raise instead: `llm` is not a dict, or the provider is not a string.
   */
  function DoctorProvider(cfg: Dict): Option<string> {
    var llm := LlmTable(cfg);
    if !llm.JObj? then None
    else
      var v := Or(GetOrNull(llm, "provider"), JStr(""));
      if v.JStr? then Some(Lower(Strip(v.s))) else None
  }

  /** The providers `config doctor` accepts; blank means no LLM is configured. */
  predicate KnownProvider(p: string) {
    p == "ollama" || p == "openai_compat" || p == ""
  }

  /** The problems with the LLM settings, for a provider already read. */
  function LlmIssues(llm: Json, provider: string): seq<string> {
    if !KnownProvider(provider) then ["llm.provider invalid: " + Repr(JStr(provider))]
    else if provider == "ollama" then
      if Truthy(GetOrNull(llm, "model")) then [] else ["llm.model is required for provider=ollama"]
    else if provider == "openai_compat" then Missing(OpenAiCompatKeys, llm, "llm.", " is required for provider=openai_compat")
    else []
  }

  /** Everything `config doctor` reports, in order; None when it raises before reporting. */
  function DoctorIssues(cfg: Dict): Option<seq<string>> {
    match DoctorProvider(cfg)
    case None => None
    case Some(provider) =>
      Some(Missing(RequiredKeys, JObj(cfg), "Missing required key: ", "") + LlmIssues(LlmTable(cfg), provider))
  }

  /** The exit status: 2 when there is a problem, 0 when there is none, 1 for an uncaught exception. */
  function ExitStatus(issues: Option<seq<string>>): int {
    match issues
    case None => 1
    case Some(errs) => if errs == [] then 0 else 2
  }

  /** Appends a message for every key of `keys` that `table` lacks, in order. */
  method CollectMissing(errs: seq<string>, keys: seq<string>, table: Json, prefix: string, suffix: string)
    returns (out: seq<string>)
    ensures out == errs + Missing(keys, table, prefix, suffix)
  {
    out := errs;
    for i := 0 to |keys|
      invariant out == errs + Missing(keys[..i], table, prefix, suffix)
    {
      assert keys[..i + 1][..i] == keys[..i];
      if !Truthy(GetOrNull(table, keys[i])) {
        out := out + [prefix + keys[i] + suffix];
      }
    }
    assert keys[..|keys|] == keys;
  }

  /** `config_doctor`: the problems found and the exit status. */
  method Doctor(cfg: Dict) returns (errs: Option<seq<string>>, status: int)
    ensures errs == DoctorIssues(cfg)
    ensures status == ExitStatus(errs)
  {
    var required := CollectMissing([], RequiredKeys, JObj(cfg), "Missing required key: ", "");
    var llm := Config.ConfigValue(cfg, "llm");
    if !Truthy(llm) {
      llm := JObj([]);
    }
    if !llm.JObj? {
      assert DoctorProvider(cfg).None?;
      return None, 1;
    }
    var p := GetOrNull(llm, "provider");
    if !Truthy(p) {
      p := JStr("");
    }
    if !p.JStr? {
      assert DoctorProvider(cfg).None?;
      return None, 1;
    }
    var provider := Lower(Strip(p.s));
    assert llm == LlmTable(cfg) && DoctorProvider(cfg) == Some(provider);
    assert required == Missing(RequiredKeys, JObj(cfg), "Missing required key: ", "");
    var found := required;
    if !KnownProvider(provider) {
      found := found + ["llm.provider invalid: " + Repr(JStr(provider))];
    } else if provider == "ollama" {
      if !Truthy(GetOrNull(llm, "model")) {
        found := found + ["llm.model is required for provider=ollama"];
      }
    } else if provider == "openai_compat" {
      found := CollectMissing(found, OpenAiCompatKeys, llm, "llm.", " is required for provider=openai_compat");
    }
    assert found == required + LlmIssues(llm, provider);
    errs := Some(found);
    status := if found == [] then 0 else 2;
  }

  /** A message names a key exactly when the key is absent or falsy. */
  lemma {:induction false} MissingNamesAbsentKeys(keys: seq<string>, table: Json, prefix: string, suffix: string, k: string)
    requires k in keys
    ensures prefix + k + suffix in Missing(keys, table, prefix, suffix) <==> !Truthy(GetOrNull(table, k))
    decreases |keys|
  {
    var last := keys[|keys| - 1];
    var init := keys[..|keys| - 1];
    assert keys == init + [last];
    if k == last {
      if Truthy(GetOrNull(table, k)) {
        if prefix + k + suffix in Missing(keys, table, prefix, suffix) {
          assert prefix + k + suffix in Missing(init, table, prefix, suffix);
          var j :| j in init && prefix + k + suffix == prefix + j + suffix && !Truthy(GetOrNull(table, j));
          SameFrameSameKey(prefix, suffix, k, j);
        }
      }
    } else {
      assert k in init;
      MissingNamesAbsentKeys(init, table, prefix, suffix, k);
      var m := prefix + k + suffix;
      if prefix + last + suffix == m {
        SameFrameSameKey(prefix, suffix, last, k);
      }
    }
  }

  /** Two messages with the same prefix and suffix are equal only for the same key. */
  lemma SameFrameSameKey(prefix: string, suffix: string, a: string, b: string)
    requires prefix + a + suffix == prefix + b + suffix
    ensures a == b
  {
    var m := prefix + a + suffix;
    assert |a| == |b|;
    assert m[|prefix|..|prefix| + |a|] == a;
    assert (prefix + b + suffix)[|prefix|..|prefix| + |b|] == b;
  }

  /** Nothing is missing exactly when every key is present and truthy. */
  lemma {:induction false} MissingEmpty(keys: seq<string>, table: Json, prefix: string, suffix: string)
    ensures Missing(keys, table, prefix, suffix) == [] <==> forall k :: k in keys ==> Truthy(GetOrNull(table, k))
    decreases |keys|
  {
    if keys != [] {
      var init := keys[..|keys| - 1];
      MissingEmpty(init, table, prefix, suffix);
      assert keys == init + [keys[|keys| - 1]];
    }
  }

  /** Each of base_url and pat is reported exactly when the profile lacks it. */
  lemma RequiredKeyReported(cfg: Dict, key: string)
    requires key in RequiredKeys && DoctorIssues(cfg).Some?
    ensures "Missing required key: " + key in DoctorIssues(cfg).value <==> !Truthy(Config.ConfigValue(cfg, key))
  {
    var prefix := "Missing required key: ";
    var llmIssues := LlmIssues(LlmTable(cfg), DoctorProvider(cfg).value);
    forall m | m in llmIssues
      ensures m != [] && m[0] != prefix[0]
    {
      LlmIssuesAreAboutLlm(LlmTable(cfg), DoctorProvider(cfg).value, m);
    }
    MissingMessageAmong(RequiredKeys, JObj(cfg), prefix, key, llmIssues);
  }

  /** A missing-key message is found among other messages, none of which start like it, exactly when the key is missing. */
  lemma MissingMessageAmong(keys: seq<string>, table: Json, prefix: string, k: string, rest: seq<string>)
    requires k in keys && prefix != []
    requires forall m :: m in rest ==> m != [] && m[0] != prefix[0]
    ensures prefix + k in Missing(keys, table, prefix, "") + rest <==> !Truthy(GetOrNull(table, k))
  {
    assert prefix + k + "" == prefix + k;
    MissingNamesAbsentKeys(keys, table, prefix, "", k);
    assert (prefix + k)[0] == prefix[0];
  }

  /** Every LLM message starts with "llm.", so none of them is a missing-key message. */
  lemma LlmIssuesAreAboutLlm(llm: Json, provider: string, m: string)
    requires m in LlmIssues(llm, provider)
    ensures |m| >= 4 && m[..4] == "llm."
    ensures m != [] && m[0] == 'l'
  {
    if !KnownProvider(provider) {
      InvalidProviderStartsWithLlm(Repr(JStr(provider)), m);
    } else if provider == "ollama" {
      OllamaModelStartsWithLlm(m);
    } else if provider == "openai_compat" {
      MissingSettingStartsWithLlm(llm, m);
    }
  }

  /** The invalid-provider message is reported under "llm.", whatever the provider's text. */
  lemma InvalidProviderStartsWithLlm(shown: string, m: string)
    requires m in ["llm.provider invalid: " + shown]
    ensures |m| >= 4 && m[..4] == "llm." && m[0] == 'l'
  {
    StartsWithLlm("llm.provider invalid: ", shown);
  }

  /** The missing ollama model is reported under "llm.". */
  lemma OllamaModelStartsWithLlm(m: string)
    requires m in ["llm.model is required for provider=ollama"]
    ensures |m| >= 4 && m[..4] == "llm." && m[0] == 'l'
  {
    StartsWithLlm("llm.model is required for provider=ollama", "");
  }

  /** A missing openai_compat setting is reported under "llm.". */
  lemma MissingSettingStartsWithLlm(llm: Json, m: string)
    requires m in Missing(OpenAiCompatKeys, llm, "llm.", " is required for provider=openai_compat")
    ensures |m| >= 4 && m[..4] == "llm." && m[0] == 'l'
  {
    var k :| k in OpenAiCompatKeys && m == "llm." + k + " is required for provider=openai_compat";
    StartsWithLlm("llm.", k + " is required for provider=openai_compat");
  }

  /** A message whose head starts with "llm." starts with it whatever follows. */
  lemma StartsWithLlm(head: string, rest: string)
    requires |head| >= 4 && head[0] == 'l' && head[1] == 'l' && head[2] == 'm' && head[3] == '.'
    ensures |head + rest| >= 4 && (head + rest)[..4] == "llm."
    ensures head + rest != [] && (head + rest)[0] == 'l'
  {
    assert (head + rest)[..4] == head[..4];
  }

  /**
   * `config doctor` is satisfied (exits 0) exactly when base_url and pat are
   * set, the provider is blank, "ollama" with a model, or "openai_compat"
   * with api_base, api_key and model.
   */
  lemma DoctorCleanIff(cfg: Dict)
    requires DoctorIssues(cfg).Some?
    ensures var provider := DoctorProvider(cfg).value;
            var llm := LlmTable(cfg);
            ExitStatus(DoctorIssues(cfg)) == 0 <==>
              && Truthy(Config.ConfigValue(cfg, "base_url")) && Truthy(Config.ConfigValue(cfg, "pat"))
              && KnownProvider(provider)
              && (provider == "ollama" ==> Truthy(GetOrNull(llm, "model")))
              && (provider == "openai_compat" ==> forall k :: k in OpenAiCompatKeys ==> Truthy(GetOrNull(llm, k)))
  {
    MissingEmpty(RequiredKeys, JObj(cfg), "Missing required key: ", "");
    MissingEmpty(OpenAiCompatKeys, LlmTable(cfg), "llm.", " is required for provider=openai_compat");
  }

  /** An unknown provider is reported once, quoted as `repr` shows it, after the missing-key messages. */
  lemma InvalidProviderReported(cfg: Dict)
    requires DoctorProvider(cfg).Some? && !KnownProvider(DoctorProvider(cfg).value)
    ensures var p := DoctorProvider(cfg).value;
            DoctorIssues(cfg).value[|DoctorIssues(cfg).value| - 1] == "llm.provider invalid: " + "'" + p + "'"
            && ExitStatus(DoctorIssues(cfg)) == 2
  {
    var p := DoctorProvider(cfg).value;
    InvalidProviderIssue(LlmTable(cfg), p);
  }

  /** For an unknown provider the LLM settings give exactly the one "invalid" message. */
  lemma InvalidProviderIssue(llm: Json, p: string)
    requires !KnownProvider(p)
    ensures LlmIssues(llm, p) == ["llm.provider invalid: " + "'" + p + "'"]
  {
    var pre := "llm.provider invalid: ";
    assert Repr(JStr(p)) == "'" + p + "'";
    assert pre + ("'" + p + "'") == pre + "'" + p + "'";
  }
}
