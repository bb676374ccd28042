/**
 * The `create` command's decisions: option resolution, the back-compatible
 * strategy override, the page title, the dry-run short cut, what happens when
 * a page with the same title exists, and the bounded search for a free
 * "(n)" suffix.
 *
 * The Markdown conversion, the HTTP calls and the printing are outside the
 * model: `find_page_by_title` is given as a map from titles to what it
 * returns for the command's space and parent (a title that is missing finds
 * nothing), and the outcome records which titles were looked up, which pages
 * were created and which were updated.
 */
module CreateDocument {
  import opened Wrappers
  import opened Strings
  import opened JsonValues
  import Config

  /** The command line, after Click parsed it. */
  datatype Args = Args(baseUrl: Json, spaceKey: Json, pat: Json, parentPageId: Option<int>, pageTitle: string,
                       noDate: bool, ifExists: Option<string>, updateIfExists: bool, dryRun: bool)

  /** How the command ends: normally, with an exit code, or with an error message. */
  datatype Exit = Done | Code(code: int) | Message(text: string)

  /** The summary a dry run prints. */
  datatype Summary = Summary(title: string, space: string, parentId: Option<string>, strategy: Option<string>)

  /** What the command did: its exit, its dry-run summary, and the lookups, creates and updates it made, in order. */
  datatype Outcome = Outcome(exit: Exit, summary: Option<Summary>, lookups: seq<string>, creates: seq<string>,
                             updates: seq<(Json, string)>)

  /** `find_page_by_title` for a title: the page found, or None. */
  function Find(pages: map<string, Json>, title: string): Json {
    if title in pages then pages[title] else JNull
  }

  /** Whether the lookup found a page (`if existing:`). */
  predicate Found(pages: map<string, Json>, title: string) {
    Truthy(Find(pages, title))
  }

  /** The strategy after `--update-if-exists`, which turns "fail" (or none) into "update". */
  function EffectiveStrategy(ifExists: Option<string>, updateIfExists: bool): (r: Option<string>)
    ensures r == Some("update") || r == ifExists
    ensures r != ifExists <==> updateIfExists && (ifExists.None? || ifExists == Some("fail"))
  {
    if updateIfExists && (ifExists.None? || ifExists == Some("fail")) then Some("update") else ifExists
  }

  /** The strategy as the duplicate check uses it: `(if_exists or "fail").lower()`. */
  function StrategyName(ifExists: Option<string>): string {
    Lower(if ifExists.Some? && ifExists.value != "" then ifExists.value else "fail")
  }

  /** The title: the given one with `--no-date`, else the given one, " - " and the run date. */
  function FinalTitle(pageTitle: string, noDate: bool, runDate: string): (r: string)
    ensures noDate ==> r == pageTitle
    ensures !noDate ==> StartsWith(r, pageTitle) && EndsWith(r, " - " + runDate)
    ensures !noDate ==> |r| == |pageTitle| + 3 + |runDate|
  {
    if noDate then pageTitle
    else
      var r := pageTitle + " - " + runDate;
      assert r == pageTitle + (" - " + runDate);
      EndsWithAppend(pageTitle, " - " + runDate);
      r
  }

  /** `parent_page_id or cfg.get("parent_page_id")`, as the optional string the API calls take. */
  function ParentId(parentPageId: Option<int>, cfg: Dict): Option<string> {
    var p := if parentPageId.Some? && parentPageId.value != 0 then JInt(parentPageId.value)
             else Config.ConfigValue(cfg, "parent_page_id");
    if Truthy(p) then Some(PyStr(p)) else None
  }

  /** The suffixed title tried as attempt `i`: "base (i)". */
  function Candidate(base: string, i: nat): string {
    base + " (" + NatToString(i) + ")"
  }

  /** The highest suffix tried. */
  const MaxSuffix := 20

  /** The titles "base (lo)" ... "base (hi - 1)". */
  function Candidates(base: string, lo: nat, hi: nat): (r: seq<string>)
    requires lo <= hi
    ensures |r| == hi - lo
    ensures forall k :: 0 <= k < |r| ==> r[k] == Candidate(base, lo + k)
    decreases hi - lo
  {
    if lo == hi then [] else [Candidate(base, lo)] + Candidates(base, lo + 1, hi)
  }

  /** The first suffix in `from`..20 whose title is free, if any. */
  function FirstFree(pages: map<string, Json>, base: string, from: nat): (r: Option<nat>)
    ensures r.Some? ==> from <= r.value <= MaxSuffix && !Found(pages, Candidate(base, r.value))
    decreases MaxSuffix + 1 - from
  {
    if from > MaxSuffix then None
    else if !Found(pages, Candidate(base, from)) then Some(from)
    else FirstFree(pages, base, from + 1)
  }

  /** Every suffix before the first free one is taken, and None means all up to 20 are taken. */
  lemma {:induction false} FirstFreeIsLeast(pages: map<string, Json>, base: string, from: nat)
    ensures var r := FirstFree(pages, base, from);
            && (r.Some? ==> forall j :: from <= j < r.value ==> Found(pages, Candidate(base, j)))
            && (r.None? ==> forall j :: from <= j <= MaxSuffix ==> Found(pages, Candidate(base, j)))
    decreases MaxSuffix + 1 - from
  {
    if from > MaxSuffix {
      assert FirstFree(pages, base, from) == None;
    } else if !Found(pages, Candidate(base, from)) {
      assert FirstFree(pages, base, from) == Some(from);
    } else {
      FirstFreeIsLeast(pages, base, from + 1);
      var r := FirstFree(pages, base, from + 1);
      assert FirstFree(pages, base, from) == r;
      if r.Some? {
        forall j | from <= j < r.value
          ensures Found(pages, Candidate(base, j))
        {
          if j == from {
            assert Found(pages, Candidate(base, from));
          }
        }
      } else {
        forall j | from <= j <= MaxSuffix
          ensures Found(pages, Candidate(base, j))
        {
          if j == from {
            assert Found(pages, Candidate(base, from));
          }
        }
      }
    }
  }

  /** The suffix search: the titles looked up, and the suffix created, if one was free. */
  method SuffixSearch(pages: map<string, Json>, base: string) returns (lookups: seq<string>, free: Option<nat>)
    ensures free == FirstFree(pages, base, 2)
    ensures free.Some? ==> lookups == Candidates(base, 2, free.value + 1)
    ensures free.None? ==> lookups == Candidates(base, 2, MaxSuffix + 1)
  {
    lookups := [];
    for i := 2 to MaxSuffix + 1
      invariant lookups == Candidates(base, 2, i)
      invariant FirstFree(pages, base, 2) == FirstFree(pages, base, i)
    {
      CandidatesAppend(base, 2, i);
      lookups := lookups + [Candidate(base, i)];
      if Found(pages, Candidate(base, i)) {
        continue;
      }
      return lookups, Some(i);
    }
    free := None;
  }

  lemma {:induction false} CandidatesAppend(base: string, lo: nat, hi: nat)
    requires lo <= hi
    ensures Candidates(base, lo, hi + 1) == Candidates(base, lo, hi) + [Candidate(base, hi)]
    decreases hi - lo
  {
    if lo < hi {
      CandidatesAppend(base, lo + 1, hi);
    }
  }

  /** What the duplicate check does once a page with the final title was found. */
  function OnExisting(strategy: string, existing: Json, finalTitle: string, base: string, pages: map<string, Json>,
                      lookups: seq<string>): Outcome
  {
    if strategy == "fail" then Outcome(Code(2), None, lookups, [], [])
    else if strategy == "open" then Outcome(Code(0), None, lookups, [], [])
    else if strategy == "update" then Outcome(Done, None, lookups, [], [(GetOrNull(existing, "id"), finalTitle)])
    else if strategy == "suffix" then
      match FirstFree(pages, base, 2)
      case Some(i) => Outcome(Done, None, lookups + Candidates(base, 2, i + 1), [Candidate(base, i)], [])
      case None => Outcome(Code(2), None, lookups + Candidates(base, 2, MaxSuffix + 1), [], [])
    else Outcome(Code(2), None, lookups, [], [])
  }

  /** The whole command, on resolved options. */
  function CreateSpec(args: Args, cfg: Dict, runDate: string, pages: map<string, Json>): Outcome {
    match Config.ResolveRequired("base_url", args.baseUrl, cfg)
    case Failure(m) => Outcome(Message(m), None, [], [], [])
    case Success(_) =>
      match Config.ResolveSpaceKey(args.spaceKey, cfg)
      case Failure(m) => Outcome(Message(m), None, [], [], [])
      case Success(space) =>
        match Config.ResolveRequired("pat", args.pat, cfg)
        case Failure(m) => Outcome(Message(m), None, [], [], [])
        case Success(_) =>
          var strategy := EffectiveStrategy(args.ifExists, args.updateIfExists);
          var title := FinalTitle(args.pageTitle, args.noDate, runDate);
          if args.dryRun then
            Outcome(Done, Some(Summary(title, space, ParentId(args.parentPageId, cfg), strategy)), [], [], [])
          else if Found(pages, title) then
            OnExisting(StrategyName(strategy), Find(pages, title), title, title, pages, [title])
          else Outcome(Done, None, [title], [title], [])
  }

  /** `create_document`. */
  method Create(args: Args, cfg: Dict, runDate: string, pages: map<string, Json>) returns (out: Outcome)
    ensures out == CreateSpec(args, cfg, runDate, pages)
  {
    var baseUrl := Config.ResolveRequired("base_url", args.baseUrl, cfg);
    if baseUrl.Failure? {
      return Outcome(Message(baseUrl.error), None, [], [], []);
    }
    var space := Config.ResolveSpaceKey(args.spaceKey, cfg);
    if space.Failure? {
      return Outcome(Message(space.error), None, [], [], []);
    }
    var pat := Config.ResolveRequired("pat", args.pat, cfg);
    if pat.Failure? {
      return Outcome(Message(pat.error), None, [], [], []);
    }
    var ifExists := args.ifExists;
    if args.updateIfExists && (ifExists.None? || ifExists == Some("fail")) {
      ifExists := Some("update");
    }
    var title := if args.noDate then args.pageTitle else args.pageTitle + " - " + runDate;
    if args.dryRun {
      return Outcome(Done, Some(Summary(title, space.value, ParentId(args.parentPageId, cfg), ifExists)), [], [], []);
    }
    var existing := Find(pages, title);
    if !Truthy(existing) {
      return Outcome(Done, None, [title], [title], []);
    }
    var strategy := StrategyName(ifExists);
    if strategy == "fail" {
      return Outcome(Code(2), None, [title], [], []);
    }
    if strategy == "open" {
      return Outcome(Code(0), None, [title], [], []);
    }
    if strategy == "update" {
      return Outcome(Done, None, [title], [], [(GetOrNull(existing, "id"), title)]);
    }
    if strategy == "suffix" {
      var lookups, free := SuffixSearch(pages, title);
      if free.Some? {
        return Outcome(Done, None, [title] + lookups, [Candidate(title, free.value)], []);
      }
      return Outcome(Code(2), None, [title] + lookups, [], []);
    }
    return Outcome(Code(2), None, [title], [], []);
  }

  // ---------------- properties ----------------

  /** Only "fail" (or no strategy) is overridden by `--update-if-exists`; other explicit strategies are kept. */
  lemma OverrideKeepsExplicitStrategies(s: string)
    requires s != "fail"
    ensures EffectiveStrategy(Some(s), true) == Some(s)
    ensures EffectiveStrategy(Some("fail"), true) == Some("update")
    ensures EffectiveStrategy(None, true) == Some("update")
    ensures EffectiveStrategy(Some(s), false) == Some(s)
  {
  }

  /** Once the options resolve, every run either stops at the dry run or starts with a lookup of the final title. */
  predicate Resolves(args: Args, cfg: Dict) {
    && Config.ResolveRequired("base_url", args.baseUrl, cfg).Success?
    && Config.ResolveSpaceKey(args.spaceKey, cfg).Success?
    && Config.ResolveRequired("pat", args.pat, cfg).Success?
  }

  /** A missing option stops the command before any call. */
  lemma MissingOptionMakesNoCalls(args: Args, cfg: Dict, runDate: string, pages: map<string, Json>)
    requires !Resolves(args, cfg)
    ensures var out := CreateSpec(args, cfg, runDate, pages);
            out.exit.Message? && out.lookups == [] && out.creates == [] && out.updates == []
  {
  }

  /** A dry run makes no lookup, creates nothing and updates nothing, and reports the title and strategy. */
  lemma DryRunMakesNoCalls(args: Args, cfg: Dict, runDate: string, pages: map<string, Json>)
    requires Resolves(args, cfg) && args.dryRun
    ensures var out := CreateSpec(args, cfg, runDate, pages);
            && out.exit == Done && out.lookups == [] && out.creates == [] && out.updates == []
            && out.summary.Some? && out.summary.value.title == FinalTitle(args.pageTitle, args.noDate, runDate)
            && out.summary.value.strategy == EffectiveStrategy(args.ifExists, args.updateIfExists)
  {
  }

  /** With no page of that title, exactly one page is created, with the final title. */
  lemma NoDuplicateCreatesOnce(args: Args, cfg: Dict, runDate: string, pages: map<string, Json>)
    requires Resolves(args, cfg) && !args.dryRun
    requires !Found(pages, FinalTitle(args.pageTitle, args.noDate, runDate))
    ensures var out := CreateSpec(args, cfg, runDate, pages);
            var title := FinalTitle(args.pageTitle, args.noDate, runDate);
            out.exit == Done && out.lookups == [title] && out.creates == [title] && out.updates == []
  {
  }

  /** With a duplicate, "fail" exits 2 and "open" exits 0, neither creating nor updating. */
  lemma FailAndOpenChangeNothing(args: Args, cfg: Dict, runDate: string, pages: map<string, Json>)
    requires Resolves(args, cfg) && !args.dryRun
    requires Found(pages, FinalTitle(args.pageTitle, args.noDate, runDate))
    requires StrategyName(EffectiveStrategy(args.ifExists, args.updateIfExists)) in {"fail", "open"}
    ensures var out := CreateSpec(args, cfg, runDate, pages);
            && out.creates == [] && out.updates == []
            && out.exit == (if StrategyName(EffectiveStrategy(args.ifExists, args.updateIfExists)) == "fail"
                            then Code(2) else Code(0))
  {
  }

  /** With a duplicate and "update", the existing page is updated with the final title, and nothing is created. */
  lemma UpdateUsesTheExistingPage(args: Args, cfg: Dict, runDate: string, pages: map<string, Json>)
    requires Resolves(args, cfg) && !args.dryRun
    requires Found(pages, FinalTitle(args.pageTitle, args.noDate, runDate))
    requires StrategyName(EffectiveStrategy(args.ifExists, args.updateIfExists)) == "update"
    ensures var out := CreateSpec(args, cfg, runDate, pages);
            var title := FinalTitle(args.pageTitle, args.noDate, runDate);
            out.exit == Done && out.creates == [] && out.updates == [(GetOrNull(Find(pages, title), "id"), title)]
  {
  }

  /**
   * With a duplicate and "suffix", "title (2)" ... "title (20)" are looked up
   * in order until one is free; that one is created. When all 19 are taken
   * the command exits 2 without creating anything.
   */
  lemma SuffixCreatesTheFirstFreeTitle(args: Args, cfg: Dict, runDate: string, pages: map<string, Json>)
    requires Resolves(args, cfg) && !args.dryRun
    requires Found(pages, FinalTitle(args.pageTitle, args.noDate, runDate))
    requires StrategyName(EffectiveStrategy(args.ifExists, args.updateIfExists)) == "suffix"
    ensures var out := CreateSpec(args, cfg, runDate, pages);
            var title := FinalTitle(args.pageTitle, args.noDate, runDate);
            && out.updates == [] && |out.creates| <= 1
            && (out.creates != [] ==>
                  exists i :: 2 <= i <= MaxSuffix && out.creates == [Candidate(title, i)]
                              && !Found(pages, Candidate(title, i))
                              && (forall j :: 2 <= j < i ==> Found(pages, Candidate(title, j)))
                              && out.lookups == [title] + Candidates(title, 2, i + 1))
            && (out.creates == [] <==> forall j :: 2 <= j <= MaxSuffix ==> Found(pages, Candidate(title, j)))
            && (out.creates == [] ==> out.exit == Code(2))
  {
    var title := FinalTitle(args.pageTitle, args.noDate, runDate);
    FirstFreeIsLeast(pages, title, 2);
    var r := FirstFree(pages, title, 2);
    if r.Some? {
      assert CreateSpec(args, cfg, runDate, pages).creates == [Candidate(title, r.value)];
    }
  }

  /** No run both creates and updates, and no run makes more than one write. */
  lemma AtMostOneWrite(args: Args, cfg: Dict, runDate: string, pages: map<string, Json>)
    ensures var out := CreateSpec(args, cfg, runDate, pages);
            |out.creates| + |out.updates| <= 1
  {
  }
}
