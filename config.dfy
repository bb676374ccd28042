/**
 * The configuration file of the CLI: the precedence resolvers for options,
 * the small TOML writer `_toml_dump`, and how `save_config` merges a profile
 * into the parsed file and `load_config` selects one. The file itself (its
 * path, reading, writing and TOML parsing) is outside the model: a file is
 * given as already parsed, and saving returns the text it would write.
 */
module Config {
  import opened Wrappers
  import opened Strings
  import opened JsonValues

  // ---------------- dictionaries ----------------

  /** A Python dict never holds a key twice. */
  predicate UniqueKeys(d: Dict) {
    forall i, j :: 0 <= i < j < |d| ==> d[i].0 != d[j].0
  }

  /** `d.update(u)`: the entries of `u` assigned one after the other. */
  function Update(d: Dict, u: Dict): Dict
    decreases |u|
  {
    if u == [] then d else Update(Put(d, u[0].0, u[0].1), u[1..])
  }

  /** After `d.update(u)` a key reads its value in `u` when `u` has it, and its old value otherwise. */
  lemma {:induction false} UpdateLookup(d: Dict, u: Dict, key: string)
    requires UniqueKeys(u)
    ensures Lookup(Update(d, u), key) == if Lookup(u, key).Some? then Lookup(u, key) else Lookup(d, key)
    decreases |u|
  {
    if u != [] {
      assert UniqueKeys(u[1..]) by {
        forall i, j | 0 <= i < j < |u[1..]| ensures u[1..][i].0 != u[1..][j].0 {
          assert u[1..][i] == u[i + 1] && u[1..][j] == u[j + 1];
        }
      }
      UpdateLookup(Put(d, u[0].0, u[0].1), u[1..], key);
      PutThenLookup(d, u[0].0, u[0].1);
      if key == u[0].0 {
        assert Lookup(u[1..], key).None? by {
          forall i | 0 <= i < |u[1..]| ensures u[1..][i].0 != key {
            assert u[1..][i] == u[i + 1];
          }
        }
      } else {
        PutKeepsOthers(d, u[0].0, u[0].1, key);
      }
    }
  }

  /** `dict(u)` (or `{}.update(u)`) is `u` itself. */
  lemma {:induction false} UpdateOfEmpty(d: Dict, u: Dict)
    requires UniqueKeys(d + u)
    ensures Update(d, u) == d + u
    decreases |u|
  {
    if u != [] {
      assert Lookup(d, u[0].0).None? by {
        forall i | 0 <= i < |d| ensures d[i].0 != u[0].0 {
          assert (d + u)[i] == d[i] && (d + u)[|d|] == u[0];
        }
      }
      PutThenLookup(d, u[0].0, u[0].1);
      assert d + u == (d + [u[0]]) + u[1..];
      UpdateOfEmpty(d + [u[0]], u[1..]);
    }
  }

  // ---------------- option resolution ----------------

  /** A value counts as given unless it is None or "". */
  predicate Given(v: Json) {
    v != JNull && v != JStr("")
  }

  /** The value of a config key, None when the key is missing. */
  function ConfigValue(cfg: Dict, key: string): Json {
    GetOrNull(JObj(cfg), key)
  }

  /** `resolve_required`: the explicit value, else the config's, else the "Missing required option" exit. */
  function ResolveRequired(key: string, value: Json, cfg: Dict): (r: Result<Json, string>)
    ensures r.Success? ==> Given(r.value)
    ensures r.Failure? <==> !Given(value) && !Given(ConfigValue(cfg, key))
    ensures r.Failure? ==> r.error == "Missing required option: " + key
  {
    if Given(value) then Success(value)
    else if Lookup(cfg, key).Some? && Given(Lookup(cfg, key).value) then Success(Lookup(cfg, key).value)
    else Failure("Missing required option: " + key)
  }

  /** An explicit option always wins over the config, and the config is used only when the option is missing. */
  lemma ResolveRequiredPrecedence(key: string, value: Json, cfg: Dict)
    ensures Given(value) ==> ResolveRequired(key, value, cfg) == Success(value)
    ensures !Given(value) && Given(ConfigValue(cfg, key)) ==> ResolveRequired(key, value, cfg) == Success(ConfigValue(cfg, key))
  {
  }

  const SpaceKeyMissing := "Missing required option: space_key (no --space-key and no default_space_key in config)"

  /** `resolve_space_key`: explicit, then the legacy `space_key`, then `default_space_key`, as a string. */
  function ResolveSpaceKey(spaceKey: Json, cfg: Dict): (r: Result<string, string>)
    ensures r.Failure? <==>
              !Given(spaceKey) && !Given(ConfigValue(cfg, "space_key")) && !Given(ConfigValue(cfg, "default_space_key"))
    ensures r.Failure? ==> r.error == SpaceKeyMissing
  {
    if Given(spaceKey) then Success(PyStr(spaceKey))
    else if Given(ConfigValue(cfg, "space_key")) then Success(PyStr(ConfigValue(cfg, "space_key")))
    else if Given(ConfigValue(cfg, "default_space_key")) then Success(PyStr(ConfigValue(cfg, "default_space_key")))
    else Failure(SpaceKeyMissing)
  }

  /**
   * The resolved space key is never empty, and it is the string form of the
   * first of explicit option, legacy key and default key that is given.
   */
  lemma ResolveSpaceKeyPrecedence(spaceKey: Json, cfg: Dict)
    ensures ResolveSpaceKey(spaceKey, cfg).Success? ==> ResolveSpaceKey(spaceKey, cfg).value != ""
    ensures Given(spaceKey) ==> ResolveSpaceKey(spaceKey, cfg) == Success(PyStr(spaceKey))
    ensures !Given(spaceKey) && Given(ConfigValue(cfg, "space_key")) ==>
              ResolveSpaceKey(spaceKey, cfg) == Success(PyStr(ConfigValue(cfg, "space_key")))
    ensures !Given(spaceKey) && !Given(ConfigValue(cfg, "space_key")) && Given(ConfigValue(cfg, "default_space_key")) ==>
              ResolveSpaceKey(spaceKey, cfg) == Success(PyStr(ConfigValue(cfg, "default_space_key")))
  {
    if Given(spaceKey) {
      PyStrIsNonEmpty(spaceKey);
    } else if Given(ConfigValue(cfg, "space_key")) {
      PyStrIsNonEmpty(ConfigValue(cfg, "space_key"));
    } else if Given(ConfigValue(cfg, "default_space_key")) {
      PyStrIsNonEmpty(ConfigValue(cfg, "default_space_key"));
    }
  }

  // ---------------- _toml_dump ----------------

  /** A parsed file as `_toml_dump` takes it: sections in order, each a dict. */
  type Sections = seq<(string, Dict)>

  /** How `_toml_dump` writes a value: booleans and integers bare, None as "", anything else quoted. */
  function RenderValue(v: Json): (r: string)
    ensures v.JBool? ==> r == (if v.b then "true" else "false")
    ensures v.JInt? ==> r == IntToString(v.i)
    ensures v.JNull? ==> r == "\"\""
    ensures v.JStr? && '"' !in v.s ==> r == "\"" + v.s + "\""
    ensures !v.JBool? && !v.JInt? ==> |r| >= 2 && r[0] == '"' && r[|r| - 1] == '"'
  {
    match v
    case JBool(b) => if b then "true" else "false"
    case JInt(i) => IntToString(i)
    case JNull => "\"\""
    case _ => "\"" + EscapeQuotes(PyStr(v)) + "\""
  }

  function Header(section: string): string {
    "[" + section + "]"
  }

  function KeyLine(entry: (string, Json)): string {
    entry.0 + " = " + RenderValue(entry.1)
  }

  /** The key lines of one section, in order. */
  function KeyLines(values: Dict): (r: seq<string>)
    ensures |r| == |values|
  {
    seq(|values|, k requires 0 <= k < |values| => KeyLine(values[k]))
  }

  /** The lines of one section: its header, its key lines, a blank line. */
  function SectionLines(section: (string, Dict)): (r: seq<string>)
    ensures |r| == |section.1| + 2
  {
    [Header(section.0)] + KeyLines(section.1) + [""]
  }

  /** The lines of each part, one part after the other. */
  function ConcatMap<T>(f: T -> seq<string>, parts: seq<T>): seq<string>
    decreases |parts|
  {
    if parts == [] then [] else ConcatMap(f, parts[..|parts| - 1]) + f(parts[|parts| - 1])
  }

  /** The lines of two runs of parts are the lines of the first run, then those of the second. */
  lemma {:induction false} ConcatMapAppend<T>(f: T -> seq<string>, a: seq<T>, b: seq<T>)
    ensures ConcatMap(f, a + b) == ConcatMap(f, a) + ConcatMap(f, b)
    decreases |b|
  {
    if b == [] {
      assert a + b == a;
    } else {
      assert (a + b)[..|a + b| - 1] == a + b[..|b| - 1];
      ConcatMapAppend(f, a, b[..|b| - 1]);
    }
  }

  /** The lines `_toml_dump` collects, section after section. */
  function TomlLines(data: Sections): seq<string> {
    ConcatMap(SectionLines, data)
  }

  /** The text `_toml_dump` returns: the lines joined, trailing blanks removed, one newline added. */
  function TomlText(data: Sections): (r: string)
    ensures r == "\n" || (|r| >= 2 && !IsSpace(r[|r| - 2]))
    ensures r[|r| - 1] == '\n'
  {
    var body := RStrip(Join("\n", TomlLines(data)));
    assert body == [] || (body + "\n")[|body + "\n"| - 2] == body[|body| - 1];
    body + "\n"
  }

  /** `_toml_dump`. */
  method TomlDump(data: Sections) returns (text: string)
    ensures text == TomlText(data)
  {
    var lines: seq<string> := [];
    for i := 0 to |data|
      invariant lines == TomlLines(data[..i])
    {
      var section := data[i];
      var before := lines;
      lines := lines + [Header(section.0)];
      var values := section.1;
      for k := 0 to |values|
        invariant lines == before + [Header(section.0)] + KeyLines(values[..k])
      {
        KeyLinesSnoc(values, k);
        lines := lines + [KeyLine(values[k])];
      }
      lines := lines + [""];
      SectionAppended(before, Header(section.0), KeyLines(values[..|values|]), lines);
      assert values[..|values|] == values;
      TomlLinesSnoc(data, i);
    }
    assert data[..|data|] == data;
    text := RStrip(Join("\n", lines)) + "\n";
  }

  /** One more key line. */
  lemma KeyLinesSnoc(values: Dict, k: nat)
    requires k < |values|
    ensures KeyLines(values[..k + 1]) == KeyLines(values[..k]) + [KeyLine(values[k])]
  {
    assert values[..k + 1][k] == values[k];
  }

  /** One more section. */
  lemma TomlLinesSnoc(data: Sections, i: nat)
    requires i < |data|
    ensures TomlLines(data[..i + 1]) == TomlLines(data[..i]) + SectionLines(data[i])
  {
    assert data[..i + 1][..i] == data[..i];
  }

  /** Appending a header, key lines and a blank line one by one appends them as one block. */
  lemma SectionAppended(before: seq<string>, header: string, keys: seq<string>, lines: seq<string>)
    requires lines == before + [header] + keys + [""]
    ensures lines == before + ([header] + keys + [""])
  {
  }

  /** The lines of the first sections, then those of the others. */
  lemma TomlLinesAppend(a: Sections, b: Sections)
    ensures TomlLines(a + b) == TomlLines(a) + TomlLines(b)
  {
    ConcatMapAppend(SectionLines, a, b);
  }

  /**
   * Where section `i` sits in the output: after the lines of the sections
   * before it come its header, one "key = value" line per key in order, and
   * a blank line.
   */
  lemma SectionAt(data: Sections, i: nat)
    requires i < |data|
    ensures var lines := TomlLines(data);
            var off := |TomlLines(data[..i])|;
            var values := data[i].1;
            && off + |values| + 2 <= |lines|
            && lines[off] == Header(data[i].0)
            && (forall k :: 0 <= k < |values| ==> lines[off + 1 + k] == KeyLine(values[k]))
            && lines[off + |values| + 1] == ""
  {
    var sec := SectionLines(data[i]);
    var pre := TomlLines(data[..i]);
    var post := TomlLines(data[i + 1..]);
    TomlLinesSnoc(data, i);
    TomlLinesAppend(data[..i + 1], data[i + 1..]);
    assert data[..i + 1] + data[i + 1..] == data;
    BlockAt(pre, sec, post);
    SectionLinesAt(data[i]);
  }

  /** The lines of a section: the header, the key lines in order, the blank line. */
  lemma SectionLinesAt(section: (string, Dict))
    ensures var sec := SectionLines(section);
            && sec[0] == Header(section.0)
            && (forall k :: 0 <= k < |section.1| ==> sec[1 + k] == KeyLine(section.1[k]))
            && sec[|section.1| + 1] == ""
  {
    var keys := KeyLines(section.1);
    Framed(Header(section.0), keys, "");
    forall k | 0 <= k < |section.1|
      ensures SectionLines(section)[1 + k] == KeyLine(section.1[k])
    {
      assert SectionLines(section)[1 + k] == keys[k];
    }
  }

  /** The first, the middle and the last lines of a framed block. */
  lemma Framed(first: string, middle: seq<string>, last: string)
    ensures ([first] + middle + [last])[0] == first
    ensures forall k :: 0 <= k < |middle| ==> ([first] + middle + [last])[1 + k] == middle[k]
    ensures ([first] + middle + [last])[|middle| + 1] == last
  {
  }

  /** A block in the middle of a sequence is found at the offset of what comes before it. */
  lemma BlockAt(pre: seq<string>, block: seq<string>, post: seq<string>)
    ensures forall j :: 0 <= j < |block| ==> (pre + block + post)[|pre| + j] == block[j]
  {
  }

  /** Empty data is written as a single newline. */
  lemma EmptyDump()
    ensures TomlText([]) == "\n"
  {
  }

  // ---------------- save_config and load_config ----------------

  /** The config file as it is found: missing (or no TOML parser), unparsable, or parsed. */
  datatype ConfigFile = Missing | Unparsable | Parsed(data: Dict)

  /** The parsed contents `save_config` starts from; `{}` unless the file parsed. */
  function Existing(file: ConfigFile): Dict {
    if file.Parsed? then file.data else []
  }

  /**
   * The file contents `save_config` writes: the profile replaced by, or
   * updated with, `updates`, and an empty "default" section added when there
   * is none. None when the call raises: the profile to update holds a
   * non-table value.
   */
  function SaveMerge(existing: Dict, profile: string, updates: Dict, replaceProfile: bool): Option<Dict> {
    var current := GetOr(JObj(existing), profile, JObj([]));
    if !replaceProfile && !current.JObj? then None
    else
      var section := if replaceProfile then Update([], updates) else Update(current.fields, updates);
      var merged := Put(existing, profile, JObj(section));
      Some(if Lookup(merged, "default").Some? then merged else Put(merged, "default", JObj([])))
  }

  /** Every section is a table, as `_toml_dump` needs. */
  predicate AllTables(d: Dict) {
    forall i :: 0 <= i < |d| ==> d[i].1.JObj?
  }

  function AsSections(d: Dict): (r: Sections)
    requires AllTables(d)
    ensures |r| == |d|
  {
    seq(|d|, i requires 0 <= i < |d| => (d[i].0, d[i].1.fields))
  }

  /**
   * `save_config`: the text it writes to the file, or None when it raises
   * (the profile, or another section it would dump, is not a table).
   */
  method SaveConfig(file: ConfigFile, profile: string, updates: Dict, replaceProfile: bool) returns (written: Option<string>)
    ensures var merged := SaveMerge(Existing(file), profile, updates, replaceProfile);
            && (written.Some? <==> merged.Some? && AllTables(merged.value))
            && (written.Some? ==> written.value == TomlText(AsSections(merged.value)))
  {
    var existing := Existing(file);
    if replaceProfile {
      existing := Put(existing, profile, JObj(Update([], updates)));
    } else {
      var current := GetOr(JObj(existing), profile, JObj([]));
      if !current.JObj? {
        return None;
      }
      existing := Put(existing, profile, JObj(Update(current.fields, updates)));
    }
    if Lookup(existing, "default").None? {
      existing := Put(existing, "default", JObj([]));
    }
    if !AllTables(existing) {
      return None;
    }
    var text := TomlDump(AsSections(existing));
    return Some(text);
  }

  /** After saving, a "default" section exists. */
  lemma SaveKeepsDefault(existing: Dict, profile: string, updates: Dict, replaceProfile: bool)
    ensures var r := SaveMerge(existing, profile, updates, replaceProfile);
            r.Some? ==> Lookup(r.value, "default").Some?
  {
    var current := GetOr(JObj(existing), profile, JObj([]));
    if replaceProfile || current.JObj? {
      var section := if replaceProfile then Update([], updates) else Update(current.fields, updates);
      var merged := Put(existing, profile, JObj(section));
      PutThenLookup(merged, "default", JObj([]));
    }
  }

  /** Saving fails only when the profile to update exists and is not a table. */
  lemma SaveFailsOnlyOnNonTable(existing: Dict, profile: string, updates: Dict, replaceProfile: bool)
    ensures SaveMerge(existing, profile, updates, replaceProfile).None? <==>
              !replaceProfile && Lookup(existing, profile).Some? && !Lookup(existing, profile).value.JObj?
  {
  }

  /** The profile section after saving. */
  function ProfileAfter(existing: Dict, profile: string, updates: Dict, replaceProfile: bool): Json
    requires SaveMerge(existing, profile, updates, replaceProfile).Some?
  {
    GetOrNull(JObj(SaveMerge(existing, profile, updates, replaceProfile).value), profile)
  }

  /** The profile section keeps its place in the file, or comes last when it is new. */
  lemma {:induction false} SaveProfileSection(existing: Dict, profile: string, updates: Dict, replaceProfile: bool)
    ensures var r := SaveMerge(existing, profile, updates, replaceProfile);
            var current := GetOr(JObj(existing), profile, JObj([]));
            r.Some? ==> ProfileAfter(existing, profile, updates, replaceProfile)
                        == JObj(if replaceProfile then Update([], updates) else Update(current.fields, updates))
  {
    var current := GetOr(JObj(existing), profile, JObj([]));
    if replaceProfile || current.JObj? {
      var section := if replaceProfile then Update([], updates) else Update(current.fields, updates);
      var merged := Put(existing, profile, JObj(section));
      PutThenLookup(existing, profile, JObj(section));
      if Lookup(merged, "default").None? {
        PutKeepsOthers(merged, "default", JObj([]), profile);
      }
    }
  }

  /** With `replace_profile`, the profile section is exactly the updates. */
  lemma SaveReplacesProfile(existing: Dict, profile: string, updates: Dict)
    requires UniqueKeys(updates)
    ensures SaveMerge(existing, profile, updates, true).Some?
    ensures ProfileAfter(existing, profile, updates, true) == JObj(updates)
  {
    SaveProfileSection(existing, profile, updates, true);
    assert [] + updates == updates;
    UpdateOfEmpty([], updates);
  }

  /**
   * Without `replace_profile`, each key of the profile reads its value in
   * the updates when they have it, and keeps its old value otherwise.
   */
  lemma SaveMergesProfile(existing: Dict, profile: string, updates: Dict, key: string)
    requires UniqueKeys(updates)
    requires SaveMerge(existing, profile, updates, false).Some?
    ensures var old_ := GetOr(JObj(existing), profile, JObj([]));
            Get(ProfileAfter(existing, profile, updates, false), key)
              == if Lookup(updates, key).Some? then Lookup(updates, key) else Get(old_, key)
  {
    SaveProfileSection(existing, profile, updates, false);
    UpdateLookup(GetOr(JObj(existing), profile, JObj([])).fields, updates, key);
  }

  /** Every other section is left as it was (an absent "default" excepted, which is added empty). */
  lemma SaveKeepsOtherSections(existing: Dict, profile: string, updates: Dict, replaceProfile: bool, other: string)
    requires other != profile
    requires other != "default" || Lookup(existing, "default").Some?
    ensures var r := SaveMerge(existing, profile, updates, replaceProfile);
            r.Some? ==> Lookup(r.value, other) == Lookup(existing, other)
  {
    var current := GetOr(JObj(existing), profile, JObj([]));
    if replaceProfile || current.JObj? {
      var section := if replaceProfile then Update([], updates) else Update(current.fields, updates);
      var merged := Put(existing, profile, JObj(section));
      PutKeepsOthers(existing, profile, JObj(section), other);
      if Lookup(merged, "default").None? {
        PutKeepsOthers(merged, "default", JObj([]), other);
      }
    }
  }

  /** `cfg.update(data[name])`: the section's keys, or the exception that yields `{}` when it is not a table. */
  function SectionOf(data: Dict, name: string): Dict
    requires Lookup(data, name).Some?
  {
    var v := Lookup(data, name).value;
    if v.JObj? then Update([], v.fields) else []
  }

  /** `load_config`: the requested profile, else "default", else `{}`; `{}` as well for a missing or bad file. */
  function LoadConfig(file: ConfigFile, profile: string): Dict {
    match file
    case Parsed(data) =>
      if Lookup(data, profile).Some? then SectionOf(data, profile)
      else if Lookup(data, "default").Some? then SectionOf(data, "default")
      else []
    case _ => []
  }

  /** What `load_config` returns, for each kind of file. */
  lemma LoadConfigSelects(file: ConfigFile, profile: string)
    ensures !file.Parsed? ==> LoadConfig(file, profile) == []
    ensures file.Parsed? && Lookup(file.data, profile).None? && Lookup(file.data, "default").None? ==>
              LoadConfig(file, profile) == []
    ensures file.Parsed? && Get(JObj(file.data), profile).Some? && UniqueKeys(Fields(GetOrNull(JObj(file.data), profile)))
              && GetOrNull(JObj(file.data), profile).JObj? ==>
              LoadConfig(file, profile) == GetOrNull(JObj(file.data), profile).fields
    ensures file.Parsed? && Lookup(file.data, profile).None? && GetOrNull(JObj(file.data), "default").JObj?
              && UniqueKeys(Fields(GetOrNull(JObj(file.data), "default"))) ==>
              LoadConfig(file, profile) == GetOrNull(JObj(file.data), "default").fields
  {
    if file.Parsed? {
      var p := GetOrNull(JObj(file.data), profile);
      var d := GetOrNull(JObj(file.data), "default");
      if p.JObj? && Lookup(file.data, profile).Some? && UniqueKeys(p.fields) {
        assert [] + p.fields == p.fields;
        UpdateOfEmpty([], p.fields);
      }
      if Lookup(file.data, profile).None? && d.JObj? && UniqueKeys(d.fields) {
        assert [] + d.fields == d.fields;
        UpdateOfEmpty([], d.fields);
      }
    }
  }

  /**
   * Loading the merged sections that `save_config` writes out (given to
   * `load_config` as already parsed) reads back the saved profile section:
   * the merge and the selection agree. The TOML text itself is not read
   * back here.
   */
  lemma SavedProfileIsLoaded(existing: Dict, profile: string, updates: Dict, replaceProfile: bool)
    requires SaveMerge(existing, profile, updates, replaceProfile).Some?
    requires UniqueKeys(Fields(ProfileAfter(existing, profile, updates, replaceProfile)))
    ensures LoadConfig(Parsed(SaveMerge(existing, profile, updates, replaceProfile).value), profile)
         == Fields(ProfileAfter(existing, profile, updates, replaceProfile))
  {
    var r := SaveMerge(existing, profile, updates, replaceProfile).value;
    SaveProfileSection(existing, profile, updates, replaceProfile);
    LoadConfigSelects(Parsed(r), profile);
  }
}
