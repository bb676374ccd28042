/**
 * Two pure pieces of the `author` command: choosing the LLM backend from the
 * profile's settings (`_pick_llm_from_cfg`), and the file name a local draft
 * is saved under (the slug in `_save_local_draft`). The backends themselves
 * are outside the model; the choice is returned as a value.
 */
module Author {
  import opened Wrappers
  import opened Strings
  import opened JsonValues
  import Config

  // ---------------- _pick_llm_from_cfg ----------------

  /** The backend chosen, with the settings it is built with. */
  datatype Llm = Ollama(base: string, model: string) | OpenAiCompat(apiBase: string, apiKey: string, model: string)

  /** Why no backend is chosen: a usage error, or a setting that is not a string (`.strip()` raises). */
  datatype LlmError = Usage(message: string) | NotText

  const NoLlmMessage :=
    "No LLM configured. Use --no-llm, or add either:\n\n"
    + "[<profile>.llm]\nprovider = 'ollama'\nmodel = 'mistral:latest'\nollama_base = 'http://localhost:11434'\n\n"
    + "OR\n\n"
    + "[<profile>.llm]\nprovider = 'openai_compat'\napi_base = 'http://localhost:8000/v1'\napi_key = '...'\nmodel = 'mistral-7b-instruct'\n\n"
    + "Flat keys also supported inside the profile: llm_provider, model, ollama_base / api_base, api_key."

  const OllamaModelMessage := "For provider=ollama, 'model' is required (e.g., 'mistral:latest')."

  const UnknownProviderMessage := "Unknown llm.provider. Use 'openai_compat' or 'ollama'."

  const DefaultOllamaBase := "http://localhost:11434"

  const DefaultOllamaModel := "mistral:latest"

  /** The nested `llm` table of the profile, `{}` when it is missing or not a table. */
  function NestedLlm(cfg: Dict): Json {
    var v := Config.ConfigValue(cfg, "llm");
    if v.JObj? then v else JObj([])
  }

  /** A setting read from the nested `llm` table, else from the profile's flat key, else the default (falsy values skipped). */
  function Setting(cfg: Dict, key: string, flatKey: string, default: string): Json {
    Or(Or(GetOrNull(NestedLlm(cfg), key), Config.ConfigValue(cfg, flatKey)), JStr(default))
  }

  /** `.strip()` of a setting; None when the setting is not a string. */
  function Stripped(v: Json): Option<string> {
    if v.JStr? then Some(Strip(v.s)) else None
  }

  /** The provider, stripped and lowercased; None when it is not a string. */
  function Provider(cfg: Dict): Option<string> {
    match Stripped(Setting(cfg, "provider", "llm_provider", ""))
    case Some(p) => Some(Lower(p))
    case None => None
  }

  /** The names of the empty ones among api_base, api_key and model, in that order. */
  function MissingKeys(apiBase: string, apiKey: string, model: string): (r: seq<string>)
    ensures forall k :: k in r <==> (k == "api_base" && apiBase == "") || (k == "api_key" && apiKey == "")
                                     || (k == "model" && model == "")
    ensures r == [] <==> apiBase != "" && apiKey != "" && model != ""
  {
    (if apiBase == "" then ["api_base"] else []) + (if apiKey == "" then ["api_key"] else [])
      + (if model == "" then ["model"] else [])
  }

  /** The "ollama" branch of `_pick_llm_from_cfg`. */
  function ChooseOllama(cfg: Dict): Result<Llm, LlmError> {
    match Stripped(Setting(cfg, "ollama_base", "ollama_base", DefaultOllamaBase))
    case None => Failure(NotText)
    case Some(base) =>
      match Stripped(Setting(cfg, "model", "model", DefaultOllamaModel))
      case None => Failure(NotText)
      case Some(model) =>
        if model == "" then Failure(Usage(OllamaModelMessage)) else Success(Ollama(base, model))
  }

  /** The "openai_compat" branch of `_pick_llm_from_cfg`. */
  function ChooseOpenAiCompat(cfg: Dict): Result<Llm, LlmError> {
    match Stripped(Setting(cfg, "api_base", "api_base", ""))
    case None => Failure(NotText)
    case Some(apiBase) =>
      match Stripped(Setting(cfg, "api_key", "api_key", ""))
      case None => Failure(NotText)
      case Some(apiKey) =>
        match Stripped(Setting(cfg, "model", "model", ""))
        case None => Failure(NotText)
        case Some(model) =>
          var missing := MissingKeys(apiBase, apiKey, model);
          if missing != [] then Failure(Usage("provider=openai_compat requires: " + Join(", ", missing)))
          else Success(OpenAiCompat(apiBase, apiKey, model))
  }

  /** `_pick_llm_from_cfg`: dispatch on the provider. */
  function PickLlm(cfg: Dict): Result<Llm, LlmError> {
    match Provider(cfg)
    case None => Failure(NotText)
    case Some(provider) =>
      if provider == "" then Failure(Usage(NoLlmMessage))
      else if provider == "ollama" then ChooseOllama(cfg)
      else if provider == "openai_compat" then ChooseOpenAiCompat(cfg)
      else Failure(Usage(UnknownProviderMessage))
  }

  /** A setting in the nested `llm` table wins over the flat key; the flat key is used only when the table has none. */
  lemma NestedSettingWins(cfg: Dict, key: string, flatKey: string, default: string)
    ensures Config.ConfigValue(cfg, "llm").JObj? && Truthy(GetOrNull(Config.ConfigValue(cfg, "llm"), key)) ==>
              Setting(cfg, key, flatKey, default) == GetOrNull(Config.ConfigValue(cfg, "llm"), key)
    ensures !Truthy(GetOrNull(NestedLlm(cfg), key)) && Truthy(Config.ConfigValue(cfg, flatKey)) ==>
              Setting(cfg, key, flatKey, default) == Config.ConfigValue(cfg, flatKey)
    ensures !Truthy(GetOrNull(NestedLlm(cfg), key)) && !Truthy(Config.ConfigValue(cfg, flatKey)) ==>
              Setting(cfg, key, flatKey, default) == JStr(default)
  {
  }

  /** Without a provider anywhere (or a blank one) no backend is chosen. */
  lemma NoProviderIsAUsageError(cfg: Dict)
    requires Provider(cfg) == Some("")
    ensures PickLlm(cfg) == Failure(Usage(NoLlmMessage))
  {
  }

  /** Any provider other than "ollama" and "openai_compat" is refused. */
  lemma UnknownProviderIsAUsageError(cfg: Dict)
    requires Provider(cfg).Some? && Provider(cfg).value !in {"", "ollama", "openai_compat"}
    ensures PickLlm(cfg) == Failure(Usage(UnknownProviderMessage))
  {
  }

  /** With provider "ollama" and no base or model set, the local server and "mistral:latest" are used. */
  lemma OllamaDefaults(cfg: Dict)
    requires Provider(cfg) == Some("ollama")
    requires !Truthy(GetOrNull(NestedLlm(cfg), "ollama_base")) && !Truthy(Config.ConfigValue(cfg, "ollama_base"))
    requires !Truthy(GetOrNull(NestedLlm(cfg), "model")) && !Truthy(Config.ConfigValue(cfg, "model"))
    ensures PickLlm(cfg) == Success(Ollama(DefaultOllamaBase, DefaultOllamaModel))
  {
    DefaultsAreTrimmed();
    assert Setting(cfg, "ollama_base", "ollama_base", DefaultOllamaBase) == JStr(DefaultOllamaBase);
    assert Setting(cfg, "model", "model", DefaultOllamaModel) == JStr(DefaultOllamaModel);
  }

  lemma DefaultsAreTrimmed()
    ensures Strip(DefaultOllamaBase) == DefaultOllamaBase && Strip(DefaultOllamaModel) == DefaultOllamaModel
  {
    StripOfTrimmed(DefaultOllamaBase);
    StripOfTrimmed(DefaultOllamaModel);
  }

  /** With provider "ollama" and string settings, the only error is a model that strips to nothing. */
  lemma OllamaFailsOnlyOnBlankModel(cfg: Dict)
    requires Provider(cfg) == Some("ollama")
    requires Setting(cfg, "ollama_base", "ollama_base", DefaultOllamaBase).JStr?
    requires Setting(cfg, "model", "model", DefaultOllamaModel).JStr?
    ensures var model := Strip(Setting(cfg, "model", "model", DefaultOllamaModel).s);
            && (PickLlm(cfg).Failure? <==> model == "")
            && (PickLlm(cfg).Failure? ==> PickLlm(cfg).error == Usage(OllamaModelMessage))
            && (PickLlm(cfg).Success? ==> PickLlm(cfg).value.model == model)
  {
    assert PickLlm(cfg) == ChooseOllama(cfg);
  }

  /**
   * With provider "openai_compat" and string settings, the choice succeeds
   * exactly when api_base, api_key and model are all non-blank, and the error
   * names the blank ones, in that order.
   */
  lemma OpenAiCompatNamesTheMissingSettings(cfg: Dict)
    requires Provider(cfg) == Some("openai_compat")
    requires Setting(cfg, "api_base", "api_base", "").JStr? && Setting(cfg, "api_key", "api_key", "").JStr?
    requires Setting(cfg, "model", "model", "").JStr?
    ensures var apiBase := Strip(Setting(cfg, "api_base", "api_base", "").s);
            var apiKey := Strip(Setting(cfg, "api_key", "api_key", "").s);
            var model := Strip(Setting(cfg, "model", "model", "").s);
            && (PickLlm(cfg).Success? <==> apiBase != "" && apiKey != "" && model != "")
            && (PickLlm(cfg).Success? ==> PickLlm(cfg).value == OpenAiCompat(apiBase, apiKey, model))
            && (PickLlm(cfg).Failure? ==>
                  PickLlm(cfg).error == Usage("provider=openai_compat requires: " + Join(", ", MissingKeys(apiBase, apiKey, model))))
  {
    assert PickLlm(cfg) == ChooseOpenAiCompat(cfg);
  }

  /** A string without blanks at either end is its own `strip()`. */
  lemma StripOfTrimmed(s: string)
    requires s != [] && !IsSpace(s[0]) && !IsSpace(s[|s| - 1])
    ensures Strip(s) == s
  {
    var t := RStripWhile(s, IsSpace);
    assert t == s;
  }

  // ---------------- the draft slug ----------------

  /** The characters a slug keeps: `[a-z0-9]`. */
  predicate SlugChar(c: char) {
    'a' <= c <= 'z' || '0' <= c <= '9'
  }

  predicate IsDash(c: char) {
    c == '-'
  }

  /** No two dashes in a row. */
  predicate NoDoubleDash(s: string) {
    forall i :: 0 <= i < |s| - 1 ==> !(s[i] == '-' && s[i + 1] == '-')
  }

  /** Only slug characters and dashes. */
  predicate SlugAlphabet(s: string) {
    forall i :: 0 <= i < |s| ==> SlugChar(s[i]) || s[i] == '-'
  }

  /** `re.sub(r"[^a-z0-9]+", "-", s)`: every maximal run of other characters becomes one dash. */
  function Dashed(s: string): (r: string)
    ensures SlugAlphabet(r)
    ensures NoDoubleDash(r)
    ensures r == [] <==> s == []
    ensures r != [] ==> (r[0] == '-' <==> !SlugChar(s[0]))
    decreases |s|
  {
    if s == [] then ""
    else if SlugChar(s[0]) then
      var t := Dashed(s[1..]);
      ConsKeepsShape(s[0], t);
      [s[0]] + t
    else
      var rest := LStripWhile(s[1..], c => !SlugChar(c));
      var t := Dashed(rest);
      assert t != [] ==> t[0] != '-';
      ConsKeepsShape('-', t);
      "-" + t
  }

  /** A slug character, or a dash not followed by one, in front of a slug-shaped string keeps the shape. */
  lemma ConsKeepsShape(c: char, t: string)
    requires SlugChar(c) || c == '-'
    requires SlugAlphabet(t) && NoDoubleDash(t)
    requires c == '-' && t != [] ==> t[0] != '-'
    ensures SlugAlphabet([c] + t) && NoDoubleDash([c] + t)
  {
    var r := [c] + t;
    assert forall i :: 1 <= i < |r| ==> r[i] == t[i - 1];
  }

  /** The slug characters of a string, in order. */
  function Kept(s: string): (r: string)
    ensures |r| <= |s|
    decreases |s|
  {
    if s == [] then "" else (if SlugChar(s[0]) then [s[0]] else "") + Kept(s[1..])
  }

  /** The slug of a draft title: lowercased, runs of other characters dashed, dashes at both ends stripped. */
  function Slug(title: string): string {
    LStripWhile(RStripWhile(Dashed(Lower(title)), IsDash), IsDash)
  }

  lemma {:induction false} KeptAppend(a: string, b: string)
    ensures Kept(a + b) == Kept(a) + Kept(b)
    decreases |a|
  {
    if a != [] {
      assert (a + b)[1..] == a[1..] + b;
      KeptAppend(a[1..], b);
    } else {
      assert a + b == b;
    }
  }

  /** A string of dashes only keeps nothing. */
  lemma {:induction false} KeptOfDashes(s: string)
    requires forall i :: 0 <= i < |s| ==> s[i] == '-'
    ensures Kept(s) == ""
    decreases |s|
  {
    if s != [] {
      KeptOfDashes(s[1..]);
    }
  }

  /** Dashing keeps every slug character, in order. */
  lemma {:induction false} DashedKeeps(s: string)
    ensures Kept(Dashed(s)) == Kept(s)
    decreases |s|
  {
    if s != [] {
      if SlugChar(s[0]) {
        DashedKeeps(s[1..]);
        assert Dashed(s) == [s[0]] + Dashed(s[1..]);
        KeptAppend([s[0]], Dashed(s[1..]));
      } else {
        var rest := LStripWhile(s[1..], c => !SlugChar(c));
        DashedKeeps(rest);
        assert Dashed(s) == "-" + Dashed(rest);
        KeptAppend("-", Dashed(rest));
        var dropped := s[1..][..|s[1..]| - |rest|];
        assert s[1..] == dropped + rest;
        KeptAppend(dropped, rest);
        KeptOfOthers(dropped);
      }
    }
  }

  /** A string without slug characters keeps nothing. */
  lemma {:induction false} KeptOfOthers(s: string)
    requires forall i :: 0 <= i < |s| ==> !SlugChar(s[i])
    ensures Kept(s) == ""
    decreases |s|
  {
    if s != [] {
      KeptOfOthers(s[1..]);
    }
  }

  /** The slug uses only `[a-z0-9-]`, has no "--", and neither starts nor ends with a dash. */
  lemma SlugShape(title: string)
    ensures var s := Slug(title);
            && SlugAlphabet(s) && NoDoubleDash(s)
            && (s != [] ==> s[0] != '-' && s[|s| - 1] != '-')
  {
    var d := Dashed(Lower(title));
    var t := RStripWhile(d, IsDash);
    SliceKeepsShape(d, 0, |t|);
    SliceKeepsShape(t, |t| - |LStripWhile(t, IsDash)|, |t|);
  }

  /** A slice of a string over the slug alphabet without double dashes is one too. */
  lemma SliceKeepsShape(d: string, lo: int, hi: int)
    requires 0 <= lo <= hi <= |d|
    requires SlugAlphabet(d) && NoDoubleDash(d)
    ensures SlugAlphabet(d[lo..hi]) && NoDoubleDash(d[lo..hi])
  {
    var s := d[lo..hi];
    assert forall i :: 0 <= i < |s| ==> s[i] == d[lo + i];
  }

  /** Stripping dashes at the end keeps every slug character. */
  lemma KeptRStripDashes(d: string)
    ensures Kept(RStripWhile(d, IsDash)) == Kept(d)
  {
    var t := RStripWhile(d, IsDash);
    assert d == t + d[|t|..];
    KeptAppend(t, d[|t|..]);
    KeptOfDashes(d[|t|..]);
  }

  /** Stripping dashes at the start keeps every slug character. */
  lemma KeptLStripDashes(t: string)
    ensures Kept(LStripWhile(t, IsDash)) == Kept(t)
  {
    var s := LStripWhile(t, IsDash);
    assert t == t[..|t| - |s|] + s;
    KeptAppend(t[..|t| - |s|], s);
    KeptOfDashes(t[..|t| - |s|]);
  }

  /** The slug keeps every letter and digit of the lowercased title, in order, and nothing else but dashes. */
  lemma SlugKeepsLettersAndDigits(title: string)
    ensures Kept(Slug(title)) == Kept(Lower(title))
  {
    var d := Dashed(Lower(title));
    DashedKeeps(Lower(title));
    KeptRStripDashes(d);
    KeptLStripDashes(RStripWhile(d, IsDash));
  }

  /** Each character outside `[a-z0-9]` replaced by a dash. */
  function Mask(s: string): (r: string)
    ensures |r| == |s| && forall i :: 0 <= i < |s| ==> r[i] == if SlugChar(s[i]) then s[i] else '-'
  {
    seq(|s|, i requires 0 <= i < |s| => if SlugChar(s[i]) then s[i] else '-')
  }

  /** Each run of dashes cut to one dash: a dash followed by another dash is dropped. */
  function Squeeze(m: string): string
    decreases |m|
  {
    if |m| <= 1 then m
    else if m[0] == '-' && m[1] == '-' then Squeeze(m[1..])
    else [m[0]] + Squeeze(m[1..])
  }

  /**
   * `Dashed` agrees with the reference reading of `re.sub(r"[^a-z0-9]+", "-", s)`:
   * mark every other character with a dash, then squeeze each run of dashes
   * to one. So a dash stands exactly where a run of other characters stood.
   */
  lemma {:induction false} DashedIsSqueezedMask(s: string)
    ensures Dashed(s) == Squeeze(Mask(s))
    decreases |s|
  {
    if s != [] {
      if SlugChar(s[0]) {
        DashedIsSqueezedMask(s[1..]);
        assert Mask(s) == [s[0]] + Mask(s[1..]);
        SqueezeAfterLetter(s[0], Mask(s[1..]));
      } else {
        var rest := LStripWhile(s[1..], c => !SlugChar(c));
        assert Dashed(s) == "-" + Dashed(rest);
        MaskAfterOther(s);
        if rest != [] {
          DashedIsSqueezedMask(rest);
          SqueezeAfterDash(Mask(rest));
        }
      }
    }
  }

  /** A leading run of other characters masks and squeezes to one dash. */
  lemma MaskAfterOther(s: string)
    requires s != [] && !SlugChar(s[0])
    ensures var rest := LStripWhile(s[1..], c => !SlugChar(c));
            Squeeze(Mask(s)) == Squeeze("-" + Mask(rest)) && (rest == [] || Mask(rest)[0] != '-')
  {
    var rest := LStripWhile(s[1..], c => !SlugChar(c));
    var dropped := s[1..][..|s[1..]| - |rest|];
    assert s == [s[0]] + (dropped + rest);
    MaskAppend([s[0]], dropped + rest);
    MaskAppend(dropped, rest);
    assert Mask(dropped) == Dashes(|dropped|);
    assert Mask([s[0]]) == "-";
    SqueezeDropsDashes(|dropped|, Mask(rest));
  }

  /**
   * The slug is the reference reading of the source's expression: lowercase,
   * mask every character outside `[a-z0-9]` with a dash, squeeze each run of
   * dashes to one, and strip dashes at both ends.
   */
  lemma SlugIsSqueezedMask(title: string)
    ensures Slug(title) == LStripWhile(RStripWhile(Squeeze(Mask(Lower(title))), IsDash), IsDash)
  {
    DashedIsSqueezedMask(Lower(title));
  }

  /** `n` dashes. */
  function Dashes(n: nat): (r: string)
    ensures |r| == n && forall i :: 0 <= i < n ==> r[i] == '-'
  {
    seq(n, _ => '-')
  }

  lemma MaskAppend(a: string, b: string)
    ensures Mask(a + b) == Mask(a) + Mask(b)
  {
    assert forall i :: 0 <= i < |a + b| ==> (a + b)[i] == if i < |a| then a[i] else b[i - |a|];
  }

  /** Squeezing a string that starts with a letter or digit keeps it in front. */
  lemma SqueezeAfterLetter(c: char, m: string)
    requires c != '-'
    ensures Squeeze([c] + m) == [c] + Squeeze(m)
  {
    assert ([c] + m)[1..] == m;
  }

  /** A dash in front of a string that does not start with a dash stays. */
  lemma SqueezeAfterDash(m: string)
    requires m != [] && m[0] != '-'
    ensures Squeeze("-" + m) == "-" + Squeeze(m)
  {
    assert ("-" + m)[1..] == m;
  }

  /** Dashes after a dash are squeezed into it. */
  lemma {:induction false} SqueezeDropsDashes(n: nat, m: string)
    ensures Squeeze("-" + (Dashes(n) + m)) == Squeeze("-" + m)
    decreases n
  {
    if n > 0 {
      var x := "-" + (Dashes(n) + m);
      assert x[1..] == "-" + (Dashes(n - 1) + m);
      SqueezeDropsDashes(n - 1, m);
    } else {
      assert Dashes(0) + m == m;
    }
  }
}
