/** The command-line front end (`scripts/szuru_toolkit.py`): which parameters
    given on the command line are recorded into which configuration section of
    the context object, the comma-list arguments, the argument guards of
    `import-from-url` and `tag-posts`, and `setup_module`'s path-validation
    condition.

    Click's parsing is not modelled: each command receives its parameters, in
    declaration order, with their values and where each value came from. */
module Cli {
  import opened Wrappers
  import opened Strings

  // ---------------------------------------------------------------------------
  // Parameters and the context object

  /** A parameter value as Click hands it over. */
  datatype ArgValue = Str(s: string) | Flag(b: bool) | Num(n: int) | Strs(items: seq<string>) | Null

  /** Click's `ParameterSource`. */
  datatype Source = CommandLine | Environment | Default | DefaultMap | Prompt

  /** One declared parameter of a command, after parsing. */
  datatype Param = Param(name: string, value: ArgValue, source: Source)

  /** One section of `ctx.obj`, and the whole object. */
  type Table = map<string, ArgValue>
  type Obj = map<string, Table>

  /** `obj.setdefault(s, {}).update({k: v})`: section `s` is created if
      missing, `k` set in it, and nothing else changes. */
  function Updated(obj: Obj, s: string, k: string, v: ArgValue): (r: Obj)
    ensures r.Keys == obj.Keys + {s}
    ensures k in r[s] && r[s][k] == v
    ensures forall k' :: k' != k ==> (k' in r[s] <==> s in obj && k' in obj[s])
    ensures forall k' :: k' != k && k' in r[s] ==> r[s][k'] == obj[s][k']
    ensures forall t :: t in obj && t != s ==> r[t] == obj[t]
  {
    obj[s := (if s in obj then obj[s] else map[])[k := v]]
  }

  /** The section of the context object each recorded parameter of the `cli`
      group goes to; `None` for a parameter that is dropped. The logging list
      names `log`, which is not a parameter, so `log_enabled` is dropped. */
  function GlobalSection(name: string): (r: Option<string>)
    ensures r.Some? ==> r.value == "globals" || r.value == "logging"
    ensures r == Some("logging") <==> name in ["log", "log_colorized", "log_file", "log_level"]
  {
    if name in ["url", "username", "api_token", "public"] then Some("globals")
    else if name in ["log", "log_colorized", "log_file", "log_level"] then Some("logging")
    else if name in ["hide_progress", "convert_to_jpg", "convert_threshold", "default_safety",
                     "max_similarity", "shrink", "shrink_threshold", "shrink_dimensions"] then Some("globals")
    else None
  }

  /** The routing in full: the connection options, `hide_progress` and the
      seven upload options go to `globals`, and every name outside the three
      lists is dropped. */
  lemma GlobalSectionRouting(name: string)
    ensures GlobalSection(name) == Some("globals") <==>
      name in ["url", "username", "api_token", "public", "hide_progress", "convert_to_jpg", "convert_threshold",
               "default_safety", "max_similarity", "shrink", "shrink_threshold", "shrink_dimensions"]
    ensures GlobalSection(name).None? <==>
      name !in ["url", "username", "api_token", "public", "log", "log_colorized", "log_file", "log_level",
                "hide_progress", "convert_to_jpg", "convert_threshold", "default_safety", "max_similarity",
                "shrink", "shrink_threshold", "shrink_dimensions"]
  {
  }

  /** Where each parameter of the `cli` group lands. */
  lemma GlobalSectionOfGroup()
    ensures GlobalSection("url") == GlobalSection("username") == GlobalSection("api_token") == Some("globals")
    ensures GlobalSection("public") == GlobalSection("hide_progress") == Some("globals")
    ensures GlobalSection("log_colorized") == GlobalSection("log_file") == GlobalSection("log_level") == Some("logging")
    ensures GlobalSection("log_enabled") == None
  {
  }

  /** The parameters whose value was given on the command line, in order. */
  function FromCommandLine(ps: seq<Param>): (r: seq<Param>)
    ensures forall p <- r :: p in ps && p.source == CommandLine
    ensures forall p <- ps :: p.source == CommandLine ==> p in r
  {
    if ps == [] then []
    else
      var rest := FromCommandLine(ps[..|ps| - 1]);
      var p := ps[|ps| - 1];
      assert forall q <- ps[..|ps| - 1] :: q in ps;
      assert forall q <- ps :: q in ps[..|ps| - 1] || q == p;
      if p.source == CommandLine then rest + [p] else rest
  }

  /** Recording parameters one after the other: each parameter given on the
      command line whose name `section` maps to a section is put there. */
  function Recorded(obj: Obj, ps: seq<Param>, section: string -> Option<string>): (r: Obj)
    ensures obj.Keys <= r.Keys
    ensures (forall p <- ps :: p.source != CommandLine) ==> r == obj
  {
    if ps == [] then obj
    else
      var o := Recorded(obj, ps[..|ps| - 1], section);
      var p := ps[|ps| - 1];
      if p.source == CommandLine && section(p.name).Some? then Updated(o, section(p.name).value, p.name, p.value) else o
  }

  /** Every table recording adds is the section of some parameter given on the
      command line. */
  lemma {:induction false} RecordedNewKeys(obj: Obj, ps: seq<Param>, section: string -> Option<string>)
    ensures var r := Recorded(obj, ps, section);
      forall t :: t in r && t !in obj ==>
        exists p <- ps :: p.source == CommandLine && section(p.name) == Some(t)
  {
    if ps != [] {
      var front := ps[..|ps| - 1];
      RecordedNewKeys(obj, front, section);
      assert forall q <- front :: q in ps;
    }
  }

  /** What recording does to one entry `k` of section `s`: when no parameter
      given on the command line is routed there, it stays as it was (present
      or absent); otherwise it holds the value of the last parameter routed
      there. Names need not be distinct: `import-from-booru` declares
      `--limit` twice. */
  lemma {:induction false} RecordedEntry(obj: Obj, ps: seq<Param>, section: string -> Option<string>, s: string, k: string)
    ensures var r := Recorded(obj, ps, section);
      (forall i :: 0 <= i < |ps| ==> !Routes(ps[i], section, s, k)) ==>
        && (s in r && k in r[s] <==> s in obj && k in obj[s])
        && (s in obj && k in obj[s] ==> r[s][k] == obj[s][k])
    ensures var r := Recorded(obj, ps, section);
      forall i :: 0 <= i < |ps| && Routes(ps[i], section, s, k) && LastRouted(ps, i, section, s, k) ==>
        s in r && k in r[s] && r[s][k] == ps[i].value
  {
    if forall i :: 0 <= i < |ps| ==> !Routes(ps[i], section, s, k) {
      RecordedUnrouted(obj, ps, section, s, k);
    }
    RecordedLast(obj, ps, section, s, k);
  }

  /** An entry no command-line parameter is routed to is left as it was. */
  lemma {:induction false} RecordedUnrouted(obj: Obj, ps: seq<Param>, section: string -> Option<string>, s: string, k: string)
    requires forall i :: 0 <= i < |ps| ==> !Routes(ps[i], section, s, k)
    ensures var r := Recorded(obj, ps, section);
      && (s in r && k in r[s] <==> s in obj && k in obj[s])
      && (s in obj && k in obj[s] ==> r[s][k] == obj[s][k])
  {
    if ps != [] {
      var front := ps[..|ps| - 1];
      var p := ps[|ps| - 1];
      assert forall i :: 0 <= i < |front| ==> front[i] == ps[i];
      RecordedUnrouted(obj, front, section, s, k);
      assert !Routes(p, section, s, k);
      EntryKept(Recorded(obj, front, section), p, section, s, k);
    }
  }

  /** Recording one parameter not routed to entry `k` of section `s` leaves
      that entry as it was. */
  lemma EntryKept(o: Obj, p: Param, section: string -> Option<string>, s: string, k: string)
    requires !Routes(p, section, s, k)
    ensures var r := Recorded(o, [p], section);
      && (s in r && k in r[s] <==> s in o && k in o[s])
      && (s in o && k in o[s] ==> r[s][k] == o[s][k])
  {
    assert [p][..0] == [];
  }

  /** An entry holds the value of the last command-line parameter routed to it. */
  lemma RecordedLast(obj: Obj, ps: seq<Param>, section: string -> Option<string>, s: string, k: string)
    ensures var r := Recorded(obj, ps, section);
      forall i :: 0 <= i < |ps| && Routes(ps[i], section, s, k) && LastRouted(ps, i, section, s, k) ==>
        s in r && k in r[s] && r[s][k] == ps[i].value
  {
    forall i | 0 <= i < |ps| && Routes(ps[i], section, s, k) && LastRouted(ps, i, section, s, k)
      ensures var r := Recorded(obj, ps, section); s in r && k in r[s] && r[s][k] == ps[i].value
    {
      RecordedLastAt(obj, ps, section, s, k, i);
    }
  }

  /** The same, for the parameter at one index `i`. */
  lemma {:induction false} RecordedLastAt(obj: Obj, ps: seq<Param>, section: string -> Option<string>, s: string, k: string, i: nat)
    requires i < |ps| && Routes(ps[i], section, s, k) && LastRouted(ps, i, section, s, k)
    ensures var r := Recorded(obj, ps, section); s in r && k in r[s] && r[s][k] == ps[i].value
  {
    var front := ps[..|ps| - 1];
    var p := ps[|ps| - 1];
    var o := Recorded(obj, front, section);
    if i == |ps| - 1 {
      assert Recorded(obj, ps, section) == Updated(o, s, k, p.value);
    } else {
      assert !Routes(p, section, s, k);
      assert LastRouted(front, i, section, s, k) by {
        forall j | i < j < |front| ensures !Routes(front[j], section, s, k) {
          assert front[j] == ps[j];
        }
      }
      RecordedLastAt(obj, front, section, s, k, i);
      EntryKept(o, p, section, s, k);
      assert Recorded(obj, ps, section) == Recorded(o, [p], section);
    }
  }

  /** No parameter after the `i`-th is routed to entry `k` of section `s`. */
  predicate LastRouted(ps: seq<Param>, i: nat, section: string -> Option<string>, s: string, k: string) {
    forall j :: i < j < |ps| ==> !Routes(ps[j], section, s, k)
  }

  /** Parameter `p` is recorded as entry `k` of section `s`. */
  predicate Routes(p: Param, section: string -> Option<string>, s: string, k: string) {
    p.source == CommandLine && p.name == k && section(k) == Some(s)
  }

  /** Filtering the command-line parameters first records the same. */
  lemma {:induction false} RecordedFromCommandLine(obj: Obj, ps: seq<Param>, section: string -> Option<string>)
    ensures Recorded(obj, FromCommandLine(ps), section) == Recorded(obj, ps, section)
  {
    if ps != [] {
      var front := ps[..|ps| - 1];
      RecordedFromCommandLine(obj, front, section);
      if ps[|ps| - 1].source == CommandLine {
        assert (FromCommandLine(front) + [ps[|ps| - 1]])[..|FromCommandLine(front)|] == FromCommandLine(front);
      }
    }
  }

  /** `create-relations` assigns a fresh one-entry section for every recorded
      parameter instead of updating it. */
  function Replaced(obj: Obj, s: string, ps: seq<Param>): (r: Obj)
    ensures r.Keys <= obj.Keys + {s}
    ensures forall t :: t in obj && t != s ==> t in r && r[t] == obj[t]
    ensures (exists p <- ps :: p.source == CommandLine) ==> s in r && |r[s].Keys| == 1
    ensures (forall p <- ps :: p.source != CommandLine) ==> r == obj
  {
    if ps == [] then obj
    else
      var o := Replaced(obj, s, ps[..|ps| - 1]);
      var p := ps[|ps| - 1];
      if p.source == CommandLine then o[s := map[p.name := p.value]] else o
  }

  /** The last parameter given on the command line, if any. */
  function LastGiven(ps: seq<Param>): (r: Option<Param>)
    ensures r.None? <==> forall p <- ps :: p.source != CommandLine
    ensures r.Some? ==> r.value in ps && r.value.source == CommandLine
  {
    if ps == [] then None
    else if ps[|ps| - 1].source == CommandLine then Some(ps[|ps| - 1])
    else
      assert forall p <- ps :: p in ps[..|ps| - 1] || p == ps[|ps| - 1];
      LastGiven(ps[..|ps| - 1])
  }

  /** It is the one after which no parameter comes from the command line. */
  lemma {:induction false} LastGivenIsLast(ps: seq<Param>, i: nat)
    requires i < |ps| && ps[i].source == CommandLine
    requires forall j :: i < j < |ps| ==> ps[j].source != CommandLine
    ensures LastGiven(ps) == Some(ps[i])
  {
    if i < |ps| - 1 {
      var front := ps[..|ps| - 1];
      assert front[i] == ps[i];
      assert forall j :: i < j < |front| ==> front[j] == ps[j];
      LastGivenIsLast(front, i);
    }
  }

  /** So only the last parameter given on the command line survives in that
      section; with none, the object is unchanged. */
  lemma {:induction false} ReplacedKeepsLast(obj: Obj, s: string, ps: seq<Param>)
    ensures Replaced(obj, s, ps) == match LastGiven(ps)
      case None => obj
      case Some(p) => obj[s := map[p.name := p.value]]
  {
    if ps != [] {
      var front, p := ps[..|ps| - 1], ps[|ps| - 1];
      ReplacedKeepsLast(obj, s, front);
      if p.source == CommandLine {
        assert LastGiven(ps) == Some(p);
        assert Replaced(obj, s, ps) == Replaced(obj, s, front)[s := map[p.name := p.value]];
      } else {
        assert LastGiven(ps) == LastGiven(front);
        assert Replaced(obj, s, ps) == Replaced(obj, s, front);
      }
    }
  }

  /** What `setup_module` passes on: the module, the context object as
      `override_config` sees it, and whether `validate_path` runs. */
  datatype Setup = Setup(name: string, overrides: Obj, validatesPath: bool)

  /** `setup_module` validates the paths for these two modules only. */
  predicate ValidatesPath(name: string) {
    name == "import_from_url" || name == "upload_media"
  }

  /** Of the toolkit's modules, only `import_from_url` and `upload_media`
      validate their paths. */
  lemma ValidatesPathOfModules()
    ensures ValidatesPath("import_from_url") && ValidatesPath("upload_media")
    ensures forall m <- ["auto_tagger", "create_relations", "create_tags", "delete_posts", "import_from_booru",
                         "reset_posts", "tag_posts"] :: !ValidatesPath(m)
  {
  }

  // ---------------------------------------------------------------------------
  // Comma lists and the guards

  /** `s.replace(' ', '').split(',')`. */
  function CommaList(s: string): (items: seq<string>)
    ensures |items| >= 1
    ensures forall t <- items :: ' ' !in t && ',' !in t
    ensures Join(items, [',']) == RemoveChar(s, ' ')
  {
    SplitOnChars(RemoveChar(s, ' '), ',');
    JoinSplitOn(RemoveChar(s, ' '), ',');
    SplitOn(RemoveChar(s, ' '), ',')
  }

  /** A list written with `", "` between its items reads back as the list. */
  lemma CommaListOfJoined(items: seq<string>)
    requires |items| >= 1 && forall t <- items :: ' ' !in t && ',' !in t
    ensures CommaList(Join(items, ", ")) == items
  {
    RemoveSpacesOfJoin(items);
    SplitOnJoin(items, ',');
  }

  lemma {:induction false} RemoveSpacesOfJoin(items: seq<string>)
    requires forall t <- items :: ' ' !in t
    ensures RemoveChar(Join(items, ", "), ' ') == Join(items, [','])
  {
    if |items| > 1 {
      assert forall t <- items[1..] :: t in items;
      RemoveSpacesOfJoin(items[1..]);
      assert items[0] in items;
      RemoveCharAppend(items[0] + ", ", Join(items[1..], ", "), ' ');
      RemoveCharAppend(items[0], ", ", ' ');
      assert RemoveChar(", ", ' ') == [','];
    } else if |items| == 1 {
      assert items[0] in items;
    }
  }

  /** Python truthiness of an optional string argument. */
  predicate Given(s: Option<string>) {
    s.Some? && s.value != ""
  }

  /** A list argument after the command's handling: split, or passed on as
      received. */
  datatype ListArg = Items(items: seq<string>) | AsGiven(raw: Option<string>)

  /** `delete-posts`, `reset-posts` and `import-from-url`: the split list, or
      `[]` when the option is absent or empty. */
  function ListOrEmpty(s: Option<string>): (r: seq<string>)
    ensures Given(s) ==> r == CommaList(s.value)
    ensures !Given(s) ==> r == []
  {
    if Given(s) then CommaList(s.value) else []
  }

  /** `auto-tagger` and `tag-posts`: the split list, or the value unchanged
      (`None` or `''`) when it is falsy. */
  function ListOrAsGiven(s: Option<string>): (r: ListArg)
    ensures Given(s) <==> r.Items?
    ensures r.Items? ==> r.items == CommaList(s.value)
    ensures r.AsGiven? ==> r.raw == s
  {
    if Given(s) then Items(CommaList(s.value)) else AsGiven(s)
  }

  /** `import-from-url` needs URLs or an input file. */
  predicate ImportFromUrlRefused(urls: seq<string>, inputFile: Option<string>) {
    urls == [] && !Given(inputFile)
  }

  /** `tag-posts` needs at least one of its four actions. */
  predicate TagPostsRefused(addTags: Option<string>, removeTags: Option<string>, source: Option<string>,
                            updateImplications: Option<bool>) {
    !Given(addTags) && !Given(removeTags) && !Given(source) && updateImplications != Some(true)
  }

  /** How a command ends: exit code 1 after the usage message, or the module's
      `main` is invoked after `setup_module`. */
  datatype Outcome = Exit(code: int) | Invoked(setup: Setup)

  // ---------------------------------------------------------------------------
  // The Click context and its commands

  class Context {
    /** `ctx.obj`. */
    var obj: Obj

    /** `ctx.ensure_object(dict)` on a fresh context. */
    constructor()
      ensures obj == map[]
    {
      obj := map[];
    }

    /** `setup_module(module, ctx)`, as far as the context is concerned. */
    function SetupFor(name: string): Setup
      reads this
    {
      Setup(name, obj, ValidatesPath(name))
    }

    /** One `ctx.obj.setdefault(s, {}).update({k: v})`. */
    method Put(s: string, k: string, v: ArgValue)
      modifies this
      ensures obj == Updated(old(obj), s, k, v)
    {
      var table := if s in obj then obj[s] else map[];
      obj := obj[s := table[k := v]];
    }

    /** The body of the `cli` group: collect the parameters given on the
      command line, then route each to its section. */
    method RecordGlobalOptions(params: seq<Param>)
      modifies this
      ensures obj == Recorded(old(obj), params, GlobalSection)
    {
      var userParams := CollectCommandLine(params);
      RecordedFromCommandLine(obj, params, GlobalSection);
      RecordRouted(userParams, GlobalSection);
    }

    /** The `cli` group's first loop: the parameters whose source is the
      command line, in order. */
    static method CollectCommandLine(params: seq<Param>) returns (userParams: seq<Param>)
      ensures userParams == FromCommandLine(params)
    {
      userParams := [];
      for i := 0 to |params|
        invariant userParams == FromCommandLine(params[..i])
      {
        assert params[..i + 1][..i] == params[..i];
        if params[i].source == CommandLine {
          userParams := userParams + [params[i]];
        }
      }
      assert params[..|params|] == params;
    }

    /** The `cli` group's second loop: each collected parameter goes to the
      section `section` gives its name, if any. */
    method RecordRouted(userParams: seq<Param>, section: string -> Option<string>)
      requires forall p <- userParams :: p.source == CommandLine
      modifies this
      ensures obj == Recorded(old(obj), userParams, section)
    {
      for i := 0 to |userParams|
        invariant obj == Recorded(old(obj), userParams[..i], section)
      {
        assert userParams[..i + 1][..i] == userParams[..i];
        assert userParams[i] in userParams;
        var item := userParams[i];
        var s := section(item.name);
        if s.Some? {
          Put(s.value, item.name, item.value);
        }
      }
      assert userParams[..|userParams|] == userParams;
    }

    /** A command's recording loop: every parameter given on the command line
      goes to the section named after the command. */
    method RecordCommand(section: string, params: seq<Param>)
      modifies this
      ensures obj == Recorded(old(obj), params, _ => Some(section))
    {
      for i := 0 to |params|
        invariant obj == Recorded(old(obj), params[..i], _ => Some(section))
      {
        assert params[..i + 1][..i] == params[..i];
        if params[i].source == CommandLine {
          Put(section, params[i].name, params[i].value);
        }
      }
      assert params[..|params|] == params;
    }

    /** `create-relations`' recording loop, which assigns the section. */
    method RecordReplacing(section: string, params: seq<Param>)
      modifies this
      ensures obj == Replaced(old(obj), section, params)
    {
      for i := 0 to |params|
        invariant obj == Replaced(old(obj), section, params[..i])
      {
        assert params[..i + 1][..i] == params[..i];
        if params[i].source == CommandLine {
          obj := obj[section := map[params[i].name := params[i].value]];
        }
      }
      assert params[..|params|] == params;
    }

    /** `auto-tagger`: record, set up, split the two tag lists when given. */
    method AutoTagger(params: seq<Param>, addTags: Option<string>, removeTags: Option<string>)
      returns (setup: Setup, add: ListArg, remove: ListArg)
      modifies this
      ensures obj == Recorded(old(obj), params, _ => Some("auto_tagger"))
      ensures setup == Setup("auto_tagger", obj, false)
      ensures add == ListOrAsGiven(addTags) && remove == ListOrAsGiven(removeTags)
    {
      RecordCommand("auto_tagger", params);
      setup := SetupFor("auto_tagger");
      add := ListOrAsGiven(addTags);
      remove := ListOrAsGiven(removeTags);
    }

    /** `create-relations`. */
    method CreateRelations(params: seq<Param>) returns (setup: Setup)
      modifies this
      ensures obj == Replaced(old(obj), "create_relations", params)
      ensures setup == Setup("create_relations", obj, false)
    {
      RecordReplacing("create_relations", params);
      setup := SetupFor("create_relations");
    }

    /** `create-tags`, `import-from-booru` and `upload-media`: record into the
      command's section, then set up its module. */
    method RecordAndSetup(name: string, params: seq<Param>) returns (setup: Setup)
      modifies this
      ensures obj == Recorded(old(obj), params, _ => Some(name))
      ensures setup == Setup(name, obj, ValidatesPath(name))
    {
      RecordCommand(name, params);
      setup := SetupFor(name);
    }

    /** `delete-posts` records nothing. */
    method DeletePosts(exceptIds: Option<string>) returns (setup: Setup, ids: seq<string>)
      ensures setup == Setup("delete_posts", obj, false)
      ensures ids == ListOrEmpty(exceptIds)
    {
      setup := SetupFor("delete_posts");
      ids := ListOrEmpty(exceptIds);
    }

    /** `import-from-url`: the guard comes before anything is recorded. */
    method ImportFromUrl(params: seq<Param>, urls: seq<string>, inputFile: Option<string>, addTags: Option<string>)
      returns (r: Outcome, add: seq<string>)
      modifies this
      ensures ImportFromUrlRefused(urls, inputFile) ==> r == Exit(1) && obj == old(obj)
      ensures !ImportFromUrlRefused(urls, inputFile) ==>
        && obj == Recorded(old(obj), params, _ => Some("import_from_url"))
        && r == Invoked(Setup("import_from_url", obj, true))
        && add == ListOrEmpty(addTags)
    {
      if ImportFromUrlRefused(urls, inputFile) {
        return Exit(1), [];
      }
      RecordCommand("import_from_url", params);
      var setup := SetupFor("import_from_url");
      r := Invoked(setup);
      add := ListOrEmpty(addTags);
    }

    /** `reset-posts` records nothing. */
    method ResetPosts(exceptIds: Option<string>, addTags: Option<string>)
      returns (setup: Setup, ids: seq<string>, add: seq<string>)
      ensures setup == Setup("reset_posts", obj, false)
      ensures ids == ListOrEmpty(exceptIds) && add == ListOrEmpty(addTags)
    {
      setup := SetupFor("reset_posts");
      ids := ListOrEmpty(exceptIds);
      add := ListOrEmpty(addTags);
    }

    /** `tag-posts`: the guard first; the module is set up BEFORE the command's
      parameters are recorded, so its configuration override does not see them. */
    method TagPosts(params: seq<Param>, addTags: Option<string>, removeTags: Option<string>,
                    source: Option<string>, updateImplications: Option<bool>)
      returns (r: Outcome, add: ListArg, remove: ListArg)
      modifies this
      ensures TagPostsRefused(addTags, removeTags, source, updateImplications) ==> r == Exit(1) && obj == old(obj)
      ensures !TagPostsRefused(addTags, removeTags, source, updateImplications) ==>
        && r == Invoked(Setup("tag_posts", old(obj), false))
        && obj == Recorded(old(obj), params, _ => Some("tag_posts"))
        && add == ListOrAsGiven(addTags) && remove == ListOrAsGiven(removeTags)
    {
      if TagPostsRefused(addTags, removeTags, source, updateImplications) {
        return Exit(1), AsGiven(addTags), AsGiven(removeTags);
      }
      var setup := SetupFor("tag_posts");
      r := Invoked(setup);
      RecordCommand("tag_posts", params);
      add := ListOrAsGiven(addTags);
      remove := ListOrAsGiven(removeTags);
    }
  }
}
