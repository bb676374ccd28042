/**
 * The `browse` command group: the CQL the `search` command and the
 * interactive `/` key send, the numbered result rows, the depth rule of the
 * `tree` command, and the state the interactive browser's key handlers keep
 * (selection, paging, page size and the back stack). The server is given as
 * a `Site` of answers; the terminal UI, the browser and the pager are not
 * modelled.
 */
module Browse {
  import opened Wrappers
  import opened Strings
  import opened JsonValues
  import Config

  // ---------------- the search command's CQL ----------------

  const OrderByModified := " ORDER BY lastmodified DESC"

  /** The CQL of a simple query: full text, pages only, current only, optionally in one space, newest first. */
  function SimpleCql(query: string, space: Option<string>): string {
    var parts := ["text~\"" + query + "\"", "type=page", "status=current"]
      + (if space.Some? then ["space=" + space.value] else []);
    Join(" AND ", parts) + OrderByModified
  }

  /** The CQL of the interactive `/` search: always limited to the current space. */
  function InteractiveCql(query: string, space: string): string {
    Join(" AND ", ["text~\"" + query + "\"", "type=page", "status=current", "space=" + space]) + OrderByModified
  }

  /** The space a command starts in: resolved only when a space key or a default space is configured. */
  function CommandSpace(spaceKey: Json, cfg: Dict): Option<string> {
    if Truthy(spaceKey) || Truthy(Config.ConfigValue(cfg, "default_space_key")) then
      match Config.ResolveSpaceKey(spaceKey, cfg)
      case Success(s) => Some(s)
      case Failure(_) => None
    else None
  }

  /** What `browse search` sends: the resolved credentials and the CQL. */
  datatype SearchRequest = SearchRequest(baseUrl: Json, pat: Json, cql: string)

  const NeitherCqlNorQuery := "Provide either --cql or --query"

  /** `browse search` up to the request: the usage check, the credentials, then the CQL. */
  function SearchCommand(cql: Json, query: Json, spaceKey: Json, baseUrl: Json, pat: Json, cfg: Dict)
    : Result<SearchRequest, string>
  {
    if !Truthy(cql) && !Truthy(query) then Failure(NeitherCqlNorQuery)
    else
      match Config.ResolveRequired("base_url", baseUrl, cfg)
      case Failure(e) => Failure(e)
      case Success(b) =>
        match Config.ResolveRequired("pat", pat, cfg)
        case Failure(e) => Failure(e)
        case Success(p) =>
          if Truthy(query) && !Truthy(cql) then Success(SearchRequest(b, p, SimpleCql(PyStr(query), CommandSpace(spaceKey, cfg))))
          else Success(SearchRequest(b, p, PyStr(cql)))
  }

  /** The simple-query CQL written out: the three fixed clauses, the space clause when there is a space, the ordering. */
  lemma SimpleCqlText(query: string, space: Option<string>)
    ensures space.None? ==>
              SimpleCql(query, space) == "text~\"" + query + "\"" + " AND " + "type=page" + " AND " + "status=current" + OrderByModified
    ensures space.Some? ==>
              SimpleCql(query, space)
              == "text~\"" + query + "\"" + " AND " + "type=page" + " AND " + "status=current" + " AND " + "space=" + space.value
                 + OrderByModified
  {
    var sep := " AND ";
    var first := "text~\"" + query + "\"";
    var three := [first, "type=page", "status=current"];
    assert three[..2][..1] == [first];
    assert Join(sep, three[..2]) == first + sep + "type=page";
    assert Join(sep, three) == first + sep + "type=page" + sep + "status=current";
    if space.Some? {
      var four := three + ["space=" + space.value];
      assert four[..3] == three;
      assert Join(sep, four) == first + sep + "type=page" + sep + "status=current" + sep + "space=" + space.value;
    } else {
      assert three + [] == three;
    }
  }

  /** The interactive `/` search sends exactly the CQL of `browse search --query` in the current space. */
  lemma InteractiveCqlIsSimpleCql(query: string, space: string)
    ensures InteractiveCql(query, space) == SimpleCql(query, Some(space))
  {
    assert ["text~\"" + query + "\"", "type=page", "status=current"] + ["space=" + space]
        == ["text~\"" + query + "\"", "type=page", "status=current", "space=" + space];
  }

  /**
   * `browse search` is refused exactly when neither --cql nor --query is
   * given; otherwise --cql is sent as given, and a query alone is turned
   * into the simple-query CQL, in the configured space if there is one.
   */
  lemma SearchCommandCql(cql: Json, query: Json, spaceKey: Json, baseUrl: Json, pat: Json, cfg: Dict)
    ensures var r := SearchCommand(cql, query, spaceKey, baseUrl, pat, cfg);
            && (!Truthy(cql) && !Truthy(query) ==> r == Failure(NeitherCqlNorQuery))
            && (r.Success? && Truthy(cql) ==> r.value.cql == PyStr(cql))
            && (r.Success? && !Truthy(cql) ==> r.value.cql == SimpleCql(PyStr(query), CommandSpace(spaceKey, cfg)))
            && (Truthy(cql) || Truthy(query) ==>
                  (r.Success? <==> (Config.Given(baseUrl) || Config.Given(Config.ConfigValue(cfg, "base_url")))
                                   && (Config.Given(pat) || Config.Given(Config.ConfigValue(cfg, "pat")))))
  {
  }

  /** A space is used exactly when a space key or a default space is configured; it is never missing then. */
  lemma CommandSpaceWhenConfigured(spaceKey: Json, cfg: Dict)
    ensures CommandSpace(spaceKey, cfg).Some? <==> Truthy(spaceKey) || Truthy(Config.ConfigValue(cfg, "default_space_key"))
    ensures Truthy(spaceKey) ==> CommandSpace(spaceKey, cfg) == Some(PyStr(spaceKey))
  {
  }

  // ---------------- numbered rows ----------------

  /** `n` spaces. */
  function Spaces(n: nat): (r: string)
    ensures |r| == n && forall i :: 0 <= i < n ==> r[i] == ' '
  {
    if n == 0 then "" else " " + Spaces(n - 1)
  }

  /** `f"{s:>3}"`: right-aligned in a field of three. */
  function PadLeft3(s: string): string {
    (if |s| >= 3 then "" else Spaces(3 - |s|)) + s
  }

  /** The padded text is the text after as many spaces as bring it to three characters (none when it is longer). */
  lemma PadLeft3Shape(s: string)
    ensures var r := PadLeft3(s); EndsWith(r, s) && |r| == if |s| >= 3 then |s| else 3
    ensures var r := PadLeft3(s); forall i :: 0 <= i < |r| - |s| ==> r[i] == ' '
  {
    EndsWithAppend(if |s| >= 3 then "" else Spaces(3 - |s|), s);
  }

  /** One printed result: its number, title and id. */
  function ResultLine(n: int, item: Json): string {
    PadLeft3(IntToString(n)) + ". " + PyStr(GetOr(item, "title", JStr(""))) + "  [id:" + PyStr(GetOr(item, "id", JStr(""))) + "]"
  }

  /** `enumerate(items, start=1 + start)`: each item with its row number, counting from `start + 1`. */
  function Numbered(items: seq<Json>, start: int): (r: seq<(int, Json)>)
    ensures |r| == |items|
    ensures forall k :: 0 <= k < |items| ==> r[k] == (start + 1 + k, items[k])
    decreases |items|
  {
    if items == [] then []
    else [(start + 1, items[0])] + Numbered(items[1..], start + 1)
  }

  /** The rows `_print_results` prints, one per numbered item. */
  function ResultLines(items: seq<Json>, start: int): (r: seq<string>)
    ensures |r| == |items| && forall k :: 0 <= k < |items| ==> r[k] == ResultLine(start + 1 + k, items[k])
  {
    var rows := Numbered(items, start);
    seq(|rows|, k requires 0 <= k < |rows| => ResultLine(rows[k].0, rows[k].1))
  }

  /** The loop of `_print_results`: the numbers it gives the items. */
  method NumberResults(items: seq<Json>, start: int) returns (rows: seq<(int, Json)>)
    ensures rows == Numbered(items, start)
  {
    rows := [];
    var n := 1 + start;
    for i := 0 to |items|
      invariant n == 1 + start + i
      invariant |rows| == i && forall k :: 0 <= k < i ==> rows[k] == (start + 1 + k, items[k])
    {
      rows := rows + [(n, items[i])];
      n := n + 1;
    }
  }

  /** The next page continues the numbering: numbering two pages in turn is numbering them as one list. */
  lemma NumberingContinues(a: seq<Json>, b: seq<Json>, start: int)
    ensures Numbered(a, start) + Numbered(b, start + |a|) == Numbered(a + b, start)
  {
    var x, y, z := Numbered(a, start), Numbered(b, start + |a|), Numbered(a + b, start);
    forall k | 0 <= k < |z|
      ensures (x + y)[k] == z[k]
    {
      if k < |a| {
        assert (a + b)[k] == a[k];
      } else {
        assert (a + b)[k] == b[k - |a|];
      }
    }
    assert x + y == z;
  }

  /** The text of an item's title as the interactive list shows it: newlines turned into spaces. */
  function OneLine(s: string): (r: string)
    ensures |r| == |s| && '\n' !in r
  {
    seq(|s|, i requires 0 <= i < |s| => if s[i] == '\n' then ' ' else s[i])
  }

  /** One row of the interactive list, marked when it is the selected one. */
  function ListRow(n: int, item: Json, selected: bool): string {
    (if selected then "➤ " else "  ") + PadLeft3(IntToString(n)) + ". " + OneLine(AsText(GetOr(item, "title", JStr(""))))
      + "  [id:" + PyStr(GetOr(item, "id", JStr(""))) + "]\n"
  }

  /** `render_list` without the heading: "No results", or one row per item numbered from `start + 1`. */
  function ListRows(items: seq<Json>, start: int, index: int): (r: seq<string>)
    ensures items == [] ==> r == ["No results"]
    ensures items != [] ==> |r| == |items| && forall k :: 0 <= k < |items| ==> r[k] == ListRow(start + 1 + k, items[k], k == index)
  {
    if items == [] then ["No results"]
    else seq(|items|, k requires 0 <= k < |items| => ListRow(start + 1 + k, items[k], k == index))
  }

  // ---------------- the tree command ----------------

  /** A page with the children the server lists for it, in order. */
  datatype Tree = Tree(page: Json, children: seq<Tree>)

  /** A printed tree line: its depth and page. */
  datatype Row = Row(depth: nat, page: Json)

  /**
   * `_print_tree`: each child at `depth`, then, when `maxDepth` is 0 or
   * `depth < maxDepth`, its own children one level deeper.
   */
  function TreeRows(children: seq<Tree>, depth: nat, maxDepth: int): seq<Row>
    decreases children
  {
    if children == [] then []
    else
      var t := children[0];
      [Row(depth, t.page)]
      + (if maxDepth == 0 || depth < maxDepth then TreeRows(t.children, depth + 1, maxDepth) else [])
      + TreeRows(children[1..], depth, maxDepth)
  }

  /** The text of a tree line: two spaces per level, a bullet, the title and the id. */
  function TreeLine(r: Row): (line: string)
    ensures |line| >= 2 * r.depth + 2 && forall i :: 0 <= i < 2 * r.depth ==> line[i] == ' '
    ensures line[2 * r.depth] == '•' && line[2 * r.depth + 1] == ' '
    ensures EndsWith(line, "  [id:" + PyStr(GetOr(r.page, "id", JStr(""))) + "]")
  {
    var head := seq(2 * r.depth, _ => ' ') + "• " + PyStr(GetOr(r.page, "title", JStr("(untitled)")));
    var tail := "  [id:" + PyStr(GetOr(r.page, "id", JStr(""))) + "]";
    EndsWithAppend(head, tail);
    head + tail
  }

  /** The number of pages below a list of children, all levels. */
  function Size(children: seq<Tree>): nat
    decreases children
  {
    if children == [] then 0 else 1 + Size(children[0].children) + Size(children[1..])
  }

  /** Rows up to a depth. */
  function UpTo(rows: seq<Row>, maxDepth: int): seq<Row> {
    if rows == [] then [] else (if rows[0].depth <= maxDepth then [rows[0]] else []) + UpTo(rows[1..], maxDepth)
  }

  lemma {:induction false} UpToAppend(a: seq<Row>, b: seq<Row>, maxDepth: int)
    ensures UpTo(a + b, maxDepth) == UpTo(a, maxDepth) + UpTo(b, maxDepth)
    decreases |a|
  {
    if a != [] {
      assert (a + b)[1..] == a[1..] + b;
      UpToAppend(a[1..], b, maxDepth);
    } else {
      assert a + b == b;
    }
  }

  lemma {:induction false} UpToNone(rows: seq<Row>, maxDepth: int)
    requires forall i :: 0 <= i < |rows| ==> rows[i].depth > maxDepth
    ensures UpTo(rows, maxDepth) == []
    decreases |rows|
  {
    if rows != [] {
      UpToNone(rows[1..], maxDepth);
    }
  }

  /** Every row is at least as deep as the level it starts from; with a limit, no deeper than the limit or that level. */
  lemma {:induction false} TreeRowsDepth(children: seq<Tree>, depth: nat, maxDepth: int)
    ensures forall i :: 0 <= i < |TreeRows(children, depth, maxDepth)| ==>
              var d := TreeRows(children, depth, maxDepth)[i].depth;
              depth <= d && (maxDepth != 0 ==> d <= depth || d <= maxDepth)
    decreases children
  {
    if children != [] {
      var t := children[0];
      TreeRowsDepth(t.children, depth + 1, maxDepth);
      TreeRowsDepth(children[1..], depth, maxDepth);
    }
  }

  /** The pages of a tree in pre-order: each child, then everything below it, then its later siblings. */
  function Preorder(children: seq<Tree>): (r: seq<Json>)
    decreases children
  {
    if children == [] then [] else [children[0].page] + Preorder(children[0].children) + Preorder(children[1..])
  }

  /** The pages of printed rows, in order. */
  function RowPages(rows: seq<Row>): (r: seq<Json>)
    ensures |r| == |rows| && forall i :: 0 <= i < |rows| ==> r[i] == rows[i].page
  {
    seq(|rows|, i requires 0 <= i < |rows| => rows[i].page)
  }

  /**
   * With no limit, the tree is printed in pre-order: the printed pages are
   * exactly the pre-order list of the tree, so every page appears once and
   * the number of rows is the number of pages.
   */
  lemma {:induction false} UnlimitedTreeListsEveryPage(children: seq<Tree>, depth: nat)
    ensures RowPages(TreeRows(children, depth, 0)) == Preorder(children)
    ensures |TreeRows(children, depth, 0)| == Size(children)
    decreases children
  {
    if children != [] {
      var t := children[0];
      var below := TreeRows(t.children, depth + 1, 0);
      var rest := TreeRows(children[1..], depth, 0);
      UnlimitedTreeListsEveryPage(t.children, depth + 1);
      UnlimitedTreeListsEveryPage(children[1..], depth);
      assert TreeRows(children, depth, 0) == [Row(depth, t.page)] + below + rest;
      RowPagesAppend([Row(depth, t.page)] + below, rest);
      RowPagesAppend([Row(depth, t.page)], below);
      assert RowPages([Row(depth, t.page)]) == [t.page];
    }
  }

  /** The pages of joined rows are the pages of each part, joined. */
  lemma RowPagesAppend(a: seq<Row>, b: seq<Row>)
    ensures RowPages(a + b) == RowPages(a) + RowPages(b)
  {
    forall i | 0 <= i < |a| + |b|
      ensures RowPages(a + b)[i] == (RowPages(a) + RowPages(b))[i]
    {
      if i >= |a| {
        assert (a + b)[i] == b[i - |a|];
      }
    }
  }

  /** A depth limit cuts the full tree: printing with limit `maxDepth` prints exactly the rows of the full tree no deeper than it. */
  lemma {:induction false} LimitCutsTheFullTree(children: seq<Tree>, depth: nat, maxDepth: int)
    requires 0 < depth <= maxDepth
    ensures TreeRows(children, depth, maxDepth) == UpTo(TreeRows(children, depth, 0), maxDepth)
    decreases children
  {
    if children != [] {
      var t := children[0];
      var below := TreeRows(t.children, depth + 1, 0);
      var rest := TreeRows(children[1..], depth, 0);
      LimitCutsTheFullTree(children[1..], depth, maxDepth);
      UpToAppend([Row(depth, t.page)] + below, rest, maxDepth);
      UpToAppend([Row(depth, t.page)], below, maxDepth);
      if depth < maxDepth {
        LimitCutsTheFullTree(t.children, depth + 1, maxDepth);
      } else {
        TreeRowsDepth(t.children, depth + 1, 0);
        UpToNone(below, maxDepth);
      }
    }
  }

  // ---------------- interactive browser ----------------

  /**
   * The server as the interactive browser sees it: the children listing for
   * (page id, limit, start), the search answer for (CQL, limit), a space's
   * homepage id and whether a page id can be fetched. The listing and the
   * search are guarded by `except` in the source, so None stands for any
   * failure there. The homepage lookup and `get_page` are not always
   * guarded: `Raised` and an unfetchable id stand for the exception they
   * raise.
   */
  datatype Site = Site(
    listChildren: (string, int, int) -> Option<seq<Json>>,
    search: (string, int) -> Option<seq<Json>>,
    homepage: string -> Reply<Option<string>>,
    fetchable: string -> bool)

  /** The outcome of a client call that may raise. */
  datatype Reply<T> = Answered(value: T) | Raised

  /** An entry of the back stack: (mode, arg, start, index). */
  datatype Frame = Frame(mode: string, arg: Option<string>, start: int, index: int)

  /**
   * The state the key handlers change. `ended` records that the command
   * stopped before its first key, because the homepage lookup or read it
   * makes before starting the application raised. An exception raised by a
   * key handler does not set it: the application reports the exception and
   * goes on, and later keys act on what the handler had already changed.
   */
  datatype View = View(
    mode: string, arg: Option<string>, pageSize: int, start: int, index: int,
    items: seq<Json>, stack: seq<Frame>, space: Option<string>, ended: bool)

  /** `start` and `index` are never negative, and the page size stays between 5 and 100. */
  predicate Valid(v: View) {
    && 5 <= v.pageSize <= 100 && v.start >= 0 && v.index >= 0
    && forall i :: 0 <= i < |v.stack| ==> v.stack[i].start >= 0 && v.stack[i].index >= 0
  }

  const InitialPageSize := 25

  /** A page id counts only when it is set and non-empty (`if not arg`). */
  predicate Set(arg: Option<string>) {
    arg.Some? && arg.value != ""
  }

  /** `load()`: the children of the current page, or nothing when no page is set or the listing fails. */
  function Load(site: Site, arg: Option<string>, pageSize: int, start: int): seq<Json> {
    if !Set(arg) then []
    else match site.listChildren(arg.value, pageSize, start)
      case Some(xs) => xs
      case None => []
  }

  /** The view with its items reloaded. */
  function Reload(site: Site, v: View): View {
    v.(items := Load(site, v.arg, v.pageSize, v.start))
  }

  /**
   * The state before the first key: the start space's homepage when it has
   * one. The homepage lookup and the read of the homepage are not guarded,
   * so their failure ends the command before the first key.
   */
  function Initial(site: Site, spaceKey: Json, cfg: Dict): View {
    var space := CommandSpace(spaceKey, cfg);
    var v := View("children", None, InitialPageSize, 0, 0, [], [], space, false);
    if !Set(space) then v
    else match site.homepage(space.value)
      case Raised => v.(ended := true)
      case Answered(home) =>
        if !Set(home) then v
        else if !site.fetchable(home.value) then v.(ended := true)
        else Reload(site, v.(mode := "children", arg := home, start := 0, index := 0))
  }

  /** ↑: one up, not past the first item. */
  function AfterUp(v: View): View {
    if v.items != [] then v.(index := if v.index - 1 > 0 then v.index - 1 else 0) else v
  }

  /** ↓: one down, not past the last item. */
  function AfterDown(v: View): View {
    if v.items != [] then v.(index := if v.index + 1 < |v.items| - 1 then v.index + 1 else |v.items| - 1) else v
  }

  /** The position `items[index]` reads in Python, where a negative index counts from the end. */
  function Position(v: View): int {
    if v.index < 0 then |v.items| + v.index else v.index
  }

  /** The id of the selected item, as `str(items[index].get("id"))`. */
  function SelectedId(v: View): string
    requires 0 <= Position(v) < |v.items|
  {
    PyStr(GetOrNull(v.items[Position(v)], "id"))
  }

  /**
   * →: remember where we are and list the children of the selected item.
   * An index off the list raises IndexError before anything changes; a
   * selected page that cannot be read raises after the place is pushed.
   */
  function AfterRight(site: Site, v: View): View {
    if v.items == [] then v
    else if !(0 <= Position(v) < |v.items|) then v
    else
      var pid := SelectedId(v);
      var pushed := v.(stack := v.stack + [Frame(v.mode, v.arg, v.start, v.index)]);
      if !site.fetchable(pid) then pushed
      else Reload(site, pushed.(mode := "children", arg := Some(pid), start := 0, index := 0))
  }

  /**
   * ←: go back to the last remembered place, if any. A remembered page that
   * cannot be read raises after the place is popped and restored, before
   * the items are reloaded.
   */
  function AfterLeft(site: Site, v: View): View {
    if v.stack == [] then v
    else
      var f := v.stack[|v.stack| - 1];
      var popped := v.(stack := v.stack[..|v.stack| - 1], mode := f.mode, arg := f.arg, start := f.start, index := f.index);
      if Set(f.arg) && !site.fetchable(f.arg.value) then popped
      else Reload(site, popped)
  }

  /** /: search the current space for the entered text, first page, first item. */
  function AfterSearch(site: Site, v: View, entered: Option<string>): View {
    if !Set(v.space) then v
    else if entered.None? || Strip(entered.value) == "" then v
    else
      match site.search(InteractiveCql(Strip(entered.value), v.space.value), v.pageSize)
      case None => v
      case Some(results) => v.(items := results, start := 0, index := 0)
  }

  /**
   * `goto_space`: make the space current, then land on its homepage, or on
   * nothing when it has none. A failing homepage lookup or read raises with
   * only the space changed.
   */
  function AfterGotoSpace(site: Site, v: View, space: string): View {
    var current := v.(space := Some(space));
    match site.homepage(space)
    case Raised => current
    case Answered(home) =>
      if !Set(home) then current.(arg := None, items := [])
      else if !site.fetchable(home.value) then current
      else Reload(site, current.(mode := "children", arg := home, start := 0, index := 0))
  }

  /** s: forget the back stack and go to the entered space. */
  function AfterSwitchSpace(site: Site, v: View, entered: Option<string>): View {
    if entered.None? || Strip(entered.value) == "" then v
    else AfterGotoSpace(site, v.(stack := []), Strip(entered.value))
  }

  /** g: list the children of the entered page id, when that page can be fetched (the failure is caught). */
  function AfterGoTo(site: Site, v: View, entered: Option<string>): View {
    if entered.None? || entered.value == "" then v
    else if !site.fetchable(entered.value) then v
    else Reload(site, v.(arg := entered, start := 0, index := 0))
  }

  /** n: the next page. */
  function AfterNext(site: Site, v: View): View {
    Reload(site, v.(start := v.start + v.pageSize, index := 0))
  }

  /** p: the previous page, not before the first. */
  function AfterPrev(site: Site, v: View): View {
    Reload(site, v.(start := if v.start - v.pageSize > 0 then v.start - v.pageSize else 0, index := 0))
  }

  /** [: five fewer per page, at least 5, from the first page. */
  function AfterSmaller(site: Site, v: View): View {
    Reload(site, v.(pageSize := if v.pageSize - 5 > 5 then v.pageSize - 5 else 5, start := 0, index := 0))
  }

  /** ]: five more per page, at most 100, from the first page. */
  function AfterLarger(site: Site, v: View): View {
    Reload(site, v.(pageSize := if v.pageSize + 5 < 100 then v.pageSize + 5 else 100, start := 0, index := 0))
  }

  /** A key press, with the text typed into its dialog where it has one. */
  datatype Key =
    | KeyUp | KeyDown | KeyRight | KeyLeft | KeySearch(text: Option<string>) | KeySpace(text: Option<string>)
    | KeyGoTo(text: Option<string>) | KeyNext | KeyPrev | KeySmaller | KeyLarger | KeyRefresh

  /** The state after a key. A command that stopped before its first key takes none. */
  function Press(site: Site, v: View, key: Key): View {
    if v.ended then v
    else match key
      case KeyUp => AfterUp(v)
      case KeyDown => AfterDown(v)
      case KeyRight => AfterRight(site, v)
      case KeyLeft => AfterLeft(site, v)
      case KeySearch(t) => AfterSearch(site, v, t)
      case KeySpace(t) => AfterSwitchSpace(site, v, t)
      case KeyGoTo(t) => AfterGoTo(site, v, t)
      case KeyNext => AfterNext(site, v)
      case KeyPrev => AfterPrev(site, v)
      case KeySmaller => AfterSmaller(site, v)
      case KeyLarger => AfterLarger(site, v)
      case KeyRefresh => Reload(site, v)
  }

  /** The state after a sequence of keys. */
  function PressAll(site: Site, v: View, keys: seq<Key>): View
    decreases |keys|
  {
    if keys == [] then v else PressAll(site, Press(site, v, keys[0]), keys[1..])
  }

  /** The browser starts in a valid state. */
  lemma InitialIsValid(site: Site, spaceKey: Json, cfg: Dict)
    ensures Valid(Initial(site, spaceKey, cfg))
  {
  }

  /**
   * The browser starts on the start space's homepage, from its first page
   * and item, when the space has one; with no space or no homepage it
   * starts on nothing; a failing lookup or read of the homepage ends it.
   */
  lemma InitialLandsOnTheHomepage(site: Site, spaceKey: Json, cfg: Dict)
    ensures var v := Initial(site, spaceKey, cfg); var space := CommandSpace(spaceKey, cfg);
            && v.space == space && v.stack == [] && v.pageSize == InitialPageSize
            && (!Set(space) ==> !v.ended && v.arg == None && v.items == [])
            && (Set(space) && site.homepage(space.value).Raised? ==> v.ended)
            && (Set(space) && site.homepage(space.value).Answered? ==>
                  var home := site.homepage(space.value).value;
                  && (!Set(home) ==> !v.ended && v.arg == None && v.items == [])
                  && (Set(home) ==> (v.ended <==> !site.fetchable(home.value)))
                  && (Set(home) && site.fetchable(home.value) ==>
                        v.arg == home && v.start == 0 && v.index == 0 && v.items == Load(site, home, InitialPageSize, 0)))
  {
  }

  /** Every key keeps the page size in 5..100 and `start`, `index` and the remembered places non-negative. */
  lemma PressKeepsValid(site: Site, v: View, key: Key)
    requires Valid(v)
    ensures Valid(Press(site, v, key))
  {
    if !v.ended {
      match key
      case KeyUp => ValidWithTheSameStack(v, AfterUp(v));
      case KeyDown => ValidWithTheSameStack(v, AfterDown(v));
      case KeyRight => RightKeepsValid(site, v);
      case KeyLeft => LeftKeepsValid(site, v);
      case KeySearch(t) => ValidWithTheSameStack(v, AfterSearch(site, v, t));
      case KeySpace(t) => SwitchSpaceKeepsValid(site, v, t);
      case KeyGoTo(t) => ValidWithTheSameStack(v, AfterGoTo(site, v, t));
      case KeyNext => ValidWithTheSameStack(v, AfterNext(site, v));
      case KeyPrev => ValidWithTheSameStack(v, AfterPrev(site, v));
      case KeySmaller => ValidWithTheSameStack(v, AfterSmaller(site, v));
      case KeyLarger => ValidWithTheSameStack(v, AfterLarger(site, v));
      case KeyRefresh => ValidWithTheSameStack(v, Reload(site, v));
    }
  }

  /** A state with the same back stack as a valid one and a page size, start and index in range is valid. */
  lemma ValidWithTheSameStack(v: View, w: View)
    requires Valid(v) && w.stack == v.stack
    requires 5 <= w.pageSize <= 100 && w.start >= 0 && w.index >= 0
    ensures Valid(w)
  {
  }

  lemma SwitchSpaceKeepsValid(site: Site, v: View, entered: Option<string>)
    requires Valid(v)
    ensures Valid(AfterSwitchSpace(site, v, entered))
  {
    if entered.Some? && Strip(entered.value) != "" {
      var sp := Strip(entered.value);
      GotoSpaceKeepsValid(site, v.(stack := []), sp);
    }
  }

  lemma GotoSpaceKeepsValid(site: Site, v: View, space: string)
    requires Valid(v)
    ensures Valid(AfterGotoSpace(site, v, space))
  {
    var w := AfterGotoSpace(site, v, space);
    assert w.stack == v.stack && 5 <= w.pageSize <= 100 && w.start >= 0 && w.index >= 0;
    ValidWithTheSameStack(v, w);
  }

  lemma RightKeepsValid(site: Site, v: View)
    requires Valid(v)
    ensures Valid(AfterRight(site, v))
  {
    if v.items != [] && 0 <= Position(v) < |v.items| {
      var s := AfterRight(site, v).stack;
      assert s == v.stack + [Frame(v.mode, v.arg, v.start, v.index)];
    }
  }

  lemma LeftKeepsValid(site: Site, v: View)
    requires Valid(v)
    ensures Valid(AfterLeft(site, v))
  {
    if v.stack != [] {
      assert v.stack[|v.stack| - 1].start >= 0;
    }
  }

  /** Any sequence of keys from the initial state keeps the browser valid. */
  lemma {:induction false} PressAllKeepsValid(site: Site, v: View, keys: seq<Key>)
    requires Valid(v)
    ensures Valid(PressAll(site, v, keys))
    decreases |keys|
  {
    if keys != [] {
      PressKeepsValid(site, v, keys[0]);
      PressAllKeepsValid(site, Press(site, v, keys[0]), keys[1..]);
    }
  }

  /**
   * A → that fails to read the selected page has already pushed the place,
   * so the next ← pops it again: the browser is back where it was, with its
   * items reloaded, or exactly as it was when its own page cannot be read
   * either.
   */
  lemma LeftAfterAFailedRight(site: Site, v: View)
    requires v.items != [] && 0 <= Position(v) < |v.items| && !site.fetchable(SelectedId(v))
    ensures Press(site, Press(site, v, KeyRight), KeyLeft)
            == if v.ended then v
               else if Set(v.arg) && !site.fetchable(v.arg.value) then v
               else Reload(site, v)
  {
    if !v.ended {
      var r := AfterRight(site, v);
      assert r.stack[..|r.stack| - 1] == v.stack;
    }
  }

  /** No key ends the browser: the flag is set only before the first key. */
  lemma NoKeyEnds(site: Site, v: View, key: Key)
    ensures Press(site, v, key).ended == v.ended
  {
    if !v.ended {
      match key
      case KeySpace(t) =>
        if t.Some? && Strip(t.value) != "" {
          assert AfterGotoSpace(site, v.(stack := []), Strip(t.value)).ended == v.ended;
        }
      case _ =>
    }
  }

  /**
   * A handler that raises does not stop the browser: after → on an index
   * off the list, the next key acts on the state as if → had not been
   * pressed.
   */
  lemma KeysGoOnAfterAFailedRight(site: Site, v: View, key: Key)
    requires !v.ended && v.items != [] && !(0 <= Position(v) < |v.items|)
    ensures Press(site, Press(site, v, KeyRight), key) == Press(site, v, key)
  {
    var w := Press(site, v, KeyRight);
    assert w == v;
  }

  /**
   * After s on a space whose homepage lookup raises, the browser goes on
   * with the stack cleared and the space set, and the next key acts on
   * that state.
   */
  lemma KeysGoOnAfterAFailedSwitch(site: Site, v: View, key: Key, entered: Option<string>)
    requires !v.ended && entered.Some? && Strip(entered.value) != ""
    requires site.homepage(Strip(entered.value)).Raised?
    ensures Press(site, Press(site, v, KeySpace(entered)), key)
            == Press(site, v.(stack := [], space := Some(Strip(entered.value))), key)
  {
    var w := Press(site, v, KeySpace(entered));
    assert w == AfterGotoSpace(site, v.(stack := []), Strip(entered.value));
    assert w == v.(stack := [], space := Some(Strip(entered.value)));
  }

  /** ↑ and ↓ move by one and keep a selection that is on the list on the list. */
  lemma UpDownStayOnTheList(v: View)
    requires v.items != [] && 0 <= v.index < |v.items|
    ensures 0 <= AfterUp(v).index < |v.items| && 0 <= AfterDown(v).index < |v.items|
    ensures v.index > 0 ==> AfterUp(v).index == v.index - 1
    ensures v.index < |v.items| - 1 ==> AfterDown(v).index == v.index + 1
    ensures v.index == 0 ==> AfterUp(v).index == 0
    ensures v.index == |v.items| - 1 ==> AfterDown(v).index == v.index
  {
  }

  /** With nothing listed, ↑ and ↓ change nothing. */
  lemma UpDownOnEmptyList(v: View)
    requires v.items == []
    ensures AfterUp(v) == v && AfterDown(v) == v
  {
  }

  /**
   * ← after → comes back to the same place: mode, page, start, selection and
   * back stack, when both pages involved can be read.
   */
  lemma LeftUndoesRight(site: Site, v: View)
    requires v.items != [] && 0 <= v.index < |v.items|
    requires site.fetchable(SelectedId(v)) && (Set(v.arg) ==> site.fetchable(v.arg.value))
    ensures var w := AfterLeft(site, AfterRight(site, v));
            && w.mode == v.mode && w.arg == v.arg && w.start == v.start && w.index == v.index
            && w.stack == v.stack && w.pageSize == v.pageSize && w.space == v.space && w.ended == v.ended
            && w.items == Load(site, v.arg, v.pageSize, v.start)
  {
    var r := AfterRight(site, v);
    assert r.stack[..|r.stack| - 1] == v.stack;
  }

  /** → lists the selected item's children from their first page, and ← on an empty stack changes nothing. */
  lemma RightAndLeftOnTheStack(site: Site, v: View)
    ensures v.items != [] && 0 <= v.index < |v.items| && site.fetchable(SelectedId(v)) ==>
              var r := AfterRight(site, v);
              && r.arg == Some(SelectedId(v)) && r.start == 0 && r.index == 0 && r.ended == v.ended
              && r.stack == v.stack + [Frame(v.mode, v.arg, v.start, v.index)]
              && r.items == Load(site, Some(SelectedId(v)), v.pageSize, 0)
    ensures v.stack == [] ==> AfterLeft(site, v) == v
  {
  }

  /**
   * The failures of → and ←: an index off the list raises with nothing
   * changed; an unreadable selected page raises with the place already
   * pushed; an unreadable remembered page raises with the place
   * already popped and restored but the old items still listed.
   */
  lemma RightAndLeftFailures(site: Site, v: View)
    ensures v.items != [] && !(0 <= Position(v) < |v.items|) ==> AfterRight(site, v) == v
    ensures v.items != [] && 0 <= Position(v) < |v.items| && !site.fetchable(SelectedId(v)) ==>
              AfterRight(site, v) == v.(stack := v.stack + [Frame(v.mode, v.arg, v.start, v.index)])
    ensures v.stack != [] ==>
              var f := v.stack[|v.stack| - 1]; var w := AfterLeft(site, v);
              && w.stack == v.stack[..|v.stack| - 1] && w.mode == f.mode && w.arg == f.arg
              && w.start == f.start && w.index == f.index
              && w.ended == v.ended && w.pageSize == v.pageSize && w.space == v.space
              && (Set(f.arg) && !site.fetchable(f.arg.value) ==> w.items == v.items)
              && (!(Set(f.arg) && !site.fetchable(f.arg.value)) ==> w.items == Load(site, f.arg, v.pageSize, f.start))
  {
  }

  /**
   * g does nothing without an id or when the page cannot be read (the error
   * is caught); otherwise it lists the children of the entered page from
   * the first page and item, keeping the back stack.
   */
  lemma GoToListsTheEnteredPage(site: Site, v: View, entered: Option<string>)
    ensures entered.None? || entered.value == "" || !site.fetchable(entered.value) ==> AfterGoTo(site, v, entered) == v
    ensures entered.Some? && entered.value != "" && site.fetchable(entered.value) ==>
              var w := AfterGoTo(site, v, entered);
              && w.arg == entered && w.start == 0 && w.index == 0 && w.stack == v.stack && w.mode == v.mode
              && w.ended == v.ended && w.items == Load(site, entered, v.pageSize, 0)
  {
  }

  /** n and p step by a page: p after n returns to the same start, and p never goes before 0. */
  lemma NextPrevPaging(site: Site, v: View)
    requires Valid(v)
    ensures AfterNext(site, v).start == v.start + v.pageSize && AfterNext(site, v).index == 0
    ensures AfterPrev(site, AfterNext(site, v)).start == v.start
    ensures AfterPrev(site, v).start == (if v.start >= v.pageSize then v.start - v.pageSize else 0)
  {
  }

  /** [ and ] step the page size by five within 5..100, each restarting from the first page. */
  lemma PageSizeSteps(site: Site, v: View)
    requires Valid(v)
    ensures AfterSmaller(site, v).pageSize == (if v.pageSize >= 10 then v.pageSize - 5 else 5)
    ensures AfterLarger(site, v).pageSize == (if v.pageSize <= 95 then v.pageSize + 5 else 100)
    ensures v.pageSize <= 95 ==> AfterSmaller(site, AfterLarger(site, v)).pageSize == v.pageSize
    ensures AfterSmaller(site, v).start == 0 && AfterLarger(site, v).start == 0
  {
  }

  /** / refuses without a current space; with one it sends the space-limited CQL and shows the answer from its start. */
  lemma SearchInTheCurrentSpace(site: Site, v: View, entered: Option<string>)
    ensures !Set(v.space) ==> AfterSearch(site, v, entered) == v
    ensures Set(v.space) && entered.Some? && Strip(entered.value) != "" ==>
              var cql := SimpleCql(Strip(entered.value), v.space);
              match site.search(cql, v.pageSize)
              case None => AfterSearch(site, v, entered) == v
              case Some(results) => AfterSearch(site, v, entered) == v.(items := results, start := 0, index := 0)
  {
    if Set(v.space) && entered.Some? && Strip(entered.value) != "" {
      InteractiveCqlIsSimpleCql(Strip(entered.value), v.space.value);
    }
  }

  /**
   * s forgets the back stack and makes the entered space current, landing
   * on its homepage when it has one; a failing lookup or read of the
   * homepage raises with the stack already cleared and the space set.
   */
  lemma SwitchSpaceClearsTheStack(site: Site, v: View, entered: Option<string>)
    requires entered.Some? && Strip(entered.value) != ""
    ensures var w := AfterSwitchSpace(site, v, entered);
            var space := Strip(entered.value);
            && w.stack == [] && w.space == Some(space)
            && (site.homepage(space).Raised? ==> w == v.(stack := [], space := Some(space)))
            && (site.homepage(space).Answered? ==>
                  var home := site.homepage(space).value;
                  && (!Set(home) ==> w.arg == None && w.items == [] && w.ended == v.ended)
                  && (Set(home) && !site.fetchable(home.value) ==> w == v.(stack := [], space := Some(space)))
                  && (Set(home) && site.fetchable(home.value) ==>
                        w.arg == home && w.start == 0 && w.index == 0 && w.ended == v.ended
                        && w.items == Load(site, home, v.pageSize, 0)))
  {
  }

  /** The interactive browser: the state its key handlers share. */
  class Browser {
    const site: Site
    var mode: string
    var arg: Option<string>
    var pageSize: int
    var start: int
    var index: int
    var items: seq<Json>
    var stack: seq<Frame>
    var space: Option<string>
    var ended: bool

    function State(): View
      reads this
    {
      View(mode, arg, pageSize, start, index, items, stack, space, ended)
    }

    /** `load()`. */
    method LoadItems()
      modifies this
      ensures State() == Reload(site, old(State()))
    {
      if !Set(arg) {
        items := [];
        return;
      }
      var answer := site.listChildren(arg.value, pageSize, start);
      items := if answer.Some? then answer.value else [];
    }

    /** The state `interactive` sets up before the first key. */
    constructor (site: Site, spaceKey: Json, cfg: Dict)
      ensures State() == Initial(site, spaceKey, cfg) && this.site == site
    {
      this.site := site;
      space := CommandSpace(spaceKey, cfg);
      mode := "children";
      arg := None;
      pageSize := InitialPageSize;
      start := 0;
      items := [];
      index := 0;
      stack := [];
      ended := false;
      new;
      if Set(space) {
        var home := site.homepage(space.value);
        if home.Raised? {
          ended := true;
        } else if Set(home.value) {
          if !site.fetchable(home.value.value) {
            ended := true;
          } else {
            mode, arg, start, index := "children", home.value, 0, 0;
            LoadItems();
          }
        }
      }
    }

    method Up()
      modifies this
      ensures State() == AfterUp(old(State()))
    {
      if items != [] {
        index := if index - 1 > 0 then index - 1 else 0;
      }
    }

    method Down()
      modifies this
      ensures State() == AfterDown(old(State()))
    {
      if items != [] {
        index := if index + 1 < |items| - 1 then index + 1 else |items| - 1;
      }
    }

    method Right()
      modifies this
      ensures State() == AfterRight(site, old(State()))
    {
      if items == [] {
        return;
      }
      var i := if index < 0 then |items| + index else index;
      if !(0 <= i < |items|) {
        return;
      }
      var pid := PyStr(GetOrNull(items[i], "id"));
      stack := stack + [Frame(mode, arg, start, index)];
      if !site.fetchable(pid) {
        return;
      }
      mode, arg, start, index := "children", Some(pid), 0, 0;
      LoadItems();
    }

    method Left()
      modifies this
      ensures State() == AfterLeft(site, old(State()))
    {
      if stack == [] {
        return;
      }
      var f := stack[|stack| - 1];
      stack := stack[..|stack| - 1];
      mode, arg, start, index := f.mode, f.arg, f.start, f.index;
      if Set(arg) && !site.fetchable(arg.value) {
        return;
      }
      LoadItems();
    }

    method Search(entered: Option<string>)
      modifies this
      ensures State() == AfterSearch(site, old(State()), entered)
    {
      if !Set(space) {
        return;
      }
      if entered.None? || Strip(entered.value) == "" {
        return;
      }
      var cql := InteractiveCql(Strip(entered.value), space.value);
      var results := site.search(cql, pageSize);
      if results.None? {
        return;
      }
      items := results.value;
      start := 0;
      index := 0;
    }

    method GotoSpace(sp: string)
      modifies this
      ensures State() == AfterGotoSpace(site, old(State()), sp)
    {
      space := Some(sp);
      var home := site.homepage(sp);
      if home.Raised? {
        return;
      }
      if !Set(home.value) {
        arg := None;
        items := [];
        return;
      }
      if !site.fetchable(home.value.value) {
        return;
      }
      mode, arg, start, index := "children", home.value, 0, 0;
      LoadItems();
    }

    method SwitchSpace(entered: Option<string>)
      modifies this
      ensures State() == AfterSwitchSpace(site, old(State()), entered)
    {
      if entered.None? || Strip(entered.value) == "" {
        return;
      }
      stack := [];
      GotoSpace(Strip(entered.value));
    }

    method GoTo(entered: Option<string>)
      modifies this
      ensures State() == AfterGoTo(site, old(State()), entered)
    {
      if entered.None? || entered.value == "" {
        return;
      }
      if !site.fetchable(entered.value) {
        return;
      }
      arg := entered;
      start := 0;
      index := 0;
      LoadItems();
    }

    method Next()
      modifies this
      ensures State() == AfterNext(site, old(State()))
    {
      start := start + pageSize;
      index := 0;
      LoadItems();
    }

    method Prev()
      modifies this
      ensures State() == AfterPrev(site, old(State()))
    {
      start := if start - pageSize > 0 then start - pageSize else 0;
      index := 0;
      LoadItems();
    }

    method Smaller()
      modifies this
      ensures State() == AfterSmaller(site, old(State()))
    {
      pageSize := if pageSize - 5 > 5 then pageSize - 5 else 5;
      start := 0;
      index := 0;
      LoadItems();
    }

    method Larger()
      modifies this
      ensures State() == AfterLarger(site, old(State()))
    {
      pageSize := if pageSize + 5 < 100 then pageSize + 5 else 100;
      start := 0;
      index := 0;
      LoadItems();
    }

    method Refresh()
      modifies this
      ensures State() == Reload(site, old(State()))
    {
      LoadItems();
    }
  }
}
