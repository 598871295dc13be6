/** Tag creation (`scripts/create_tags.py`): the Danbooru category mapping, the
    tag-file line format, and the two creation loops, over the lines of a tag
    file or over the tag pages Danbooru returns.

    Szurubooru's `create_tag` is a parameter giving each call's outcome; the
    tag file is given as its lines. */
module CreateTags {
  import opened Wrappers
  import opened Strings
  import opened Json
  import Config
  import DanbooruClient

  // ---------------------------------------------------------------------------
  // convert_tag_category

  /** `convert_tag_category`: Danbooru's numeric category to Szurubooru's
      category name, the copyright category 3 becoming `series`; `None` for
      any other value, 2 included. */
  function ConvertTagCategory(category: Value): (name: Option<string>)
    ensures name.Some? <==> category.Number? && category.num in {0, 1, 3, 4, 5}
  {
    match category
    case Number(0) => Some("default")
    case Number(1) => Some("artist")
    case Number(3) => Some("series")
    case Number(4) => Some("character")
    case Number(5) => Some("meta")
    case _ => None
  }

  /** The Danbooru code of each Szurubooru category name the mapping produces. */
  function CategoryCode(name: string): Option<int> {
    if name == "default" then Some(0)
    else if name == "artist" then Some(1)
    else if name == "series" then Some(3)
    else if name == "character" then Some(4)
    else if name == "meta" then Some(5)
    else None
  }

  /** The mapping is one-to-one: each name it gives comes from exactly one code. */
  lemma ConvertTagCategoryInverse(category: Value)
    ensures ConvertTagCategory(category).Some? ==>
      CategoryCode(ConvertTagCategory(category).value) == Some(category.num)
    ensures forall name :: CategoryCode(name).Some? ==> ConvertTagCategory(Number(CategoryCode(name).value)) == Some(name)
  {
  }

  // ---------------------------------------------------------------------------
  // The tag-file line

  /** A parsed tag-file line: the name, and the category (`None` when the line
      has no comma, so that `tag[1]` raises `IndexError`). */
  datatype TagLine = TagLine(name: string, category: Option<string>)

  /** `line.strip().replace(' ', '').split(',')`, fields 0 and 1. */
  function ParseTagLine(line: string): (t: TagLine)
    ensures ' ' !in t.name && ',' !in t.name
    ensures t.category.Some? ==> ' ' !in t.category.value && ',' !in t.category.value
    ensures t.category.None? <==> ',' !in RemoveChar(Strip(line), ' ')
    ensures var s := RemoveChar(Strip(line), ' ');
      t.category.None? ==> t.name == s
  {
    var s := RemoveChar(Strip(line), ' ');
    var fields := SplitOn(s, ',');
    assert fields[0] in fields;
    SplitOnMany(s, ',');
    SplitOnChars(s, ',');
    JoinSplitOn(s, ',');
    assert |fields| > 1 ==> fields[1] in fields;
    TagLine(fields[0], if |fields| > 1 then Some(fields[1]) else None)
  }

  /** A line that reads, once stripped and rid of its spaces, as
      `name,category` followed by nothing or by further comma-separated
      fields parses as that name and category. */
  lemma ParseTagLineOfFields(line: string, name: string, category: string, rest: string)
    requires RemoveChar(Strip(line), ' ') == name + "," + category + rest
    requires ',' !in name && ',' !in category
    requires rest == [] || rest[0] == ','
    ensures ParseTagLine(line) == TagLine(name, Some(category))
  {
    SplitOnFirstTwo(name, category, rest);
  }

  /** Splitting `name,category` plus nothing or further comma-separated fields
      gives `name` and `category` as the first two fields. */
  lemma SplitOnFirstTwo(name: string, category: string, rest: string)
    requires ',' !in name && ',' !in category
    requires rest == [] || rest[0] == ','
    ensures var fields := SplitOn(name + "," + category + rest, ',');
      |fields| > 1 && fields[0] == name && fields[1] == category
  {
    assert name + "," + category + rest == name + [','] + (category + rest);
    SplitOnPrefix(name, category + rest, ',');
    if rest == [] {
      assert category + rest == category;
      SplitOnNoSep(category, ',');
    } else {
      assert category + rest == category + [','] + rest[1..];
      SplitOnPrefix(category, rest[1..], ',');
    }
  }

  /** A line written as `name,category` (then a newline) reads back as that
      name and category. */
  lemma ParseTagLineOfFormatted(name: string, category: string)
    requires NoSpace(name) && NoSpace(category) && ',' !in name && ',' !in category
    ensures ParseTagLine(name + "," + category + "\n") == TagLine(name, Some(category))
  {
    var s := name + [','] + category;
    assert name + "," + category + "\n" == s + "\n";
    assert NoSpace(s);
    StripLine(s);
    assert ' ' !in s by {
      assert IsSpace(' ');
    }
    assert RemoveChar(Strip(s + "\n"), ' ') == s;
    ParseTagLineOfFields(s + "\n", name, category, []);
  }

  /** Spaces inside a field and after the comma are dropped: a line
      `first second, category` reads as the name `firstsecond`. */
  lemma ParseTagLineSpaced(first: string, second: string, category: string)
    requires first != [] && category != []
    requires NoSpace(first) && NoSpace(second) && NoSpace(category)
    requires ',' !in first && ',' !in second && ',' !in category
    ensures ParseTagLine(first + " " + second + ", " + category + "\n") == TagLine(first + second, Some(category))
  {
    var s := first + " " + second + ", " + category;
    assert first + " " + second + ", " + category + "\n" == s + "\n";
    assert s[0] == first[0] && s[|s| - 1] == category[|category| - 1];
    StripLineEnds(s);
    SpacesRemoved(first, second, category);
    ParseTagLineOfFields(s + "\n", first + second, category, []);
  }

  lemma SpacesRemoved(first: string, second: string, category: string)
    requires NoSpace(first) && NoSpace(second) && NoSpace(category)
    ensures RemoveChar(first + " " + second + ", " + category, ' ') == first + second + "," + category + []
  {
    assert IsSpace(' ');
    assert ' ' !in first && ' ' !in second && ' ' !in category;
    var tail := second + [','] + [' '] + category;
    RemoveCharSkip(second + [','], category, ' ');
    assert RemoveChar(category, ' ') == category;
    RemoveCharSkip(first, tail, ' ');
    assert first + " " + second + ", " + category == first + [' '] + tail;
  }

  /** Removing `c` from `a`, `c`, then `t`, where `a` has no `c`. */
  lemma RemoveCharSkip(a: string, t: string, c: char)
    requires c !in a
    ensures RemoveChar(a + [c] + t, c) == a + RemoveChar(t, c)
  {
    RemoveCharAppend(a, [c] + t, c);
    RemoveCharAppend([c], t, c);
    assert RemoveChar([c], c) == [];
    assert a + [c] + t == a + ([c] + t);
  }

  // ---------------------------------------------------------------------------
  // Settings

  /** Python's `int(v)` for an option value; `None` where it raises. */
  function IntOf(v: Config.Setting): (r: Option<int>)
    ensures v.Int? ==> r == Some(v.i)
    ensures v.Flag? ==> r == Some(if v.b then 1 else 0)
    ensures v.Float? ==>
      && r.Some? && (r.value as real) * v.r >= 0.0
      && Abs(r.value as real) <= Abs(v.r) < Abs(r.value as real) + 1.0
  {
    match v
    case Int(i) => Some(i)
    case Flag(b) => Some(if b then 1 else 0)
    case Text(s) => ParseInt(s)
    case Float(r) => Some(if r >= 0.0 then r.Floor else -((-r).Floor))
  }

  /** The absolute value of a real. */
  function Abs(x: real): real {
    if x < 0.0 then -x else x
  }

  /** The option `o` of section `s`, or `None` when either is missing. */
  function Lookup(secs: map<string, Config.Section>, s: string, o: string): Option<Config.Setting> {
    if s in secs && o in secs[s] then Some(secs[s][o]) else None
  }

  /** `hide_progress`: from `globals` when that section sets it, else from
      `create_tags`. A missing `globals` section is an attribute error, which
      the `except KeyError` does not catch (`None`). */
  function HideProgress(secs: map<string, Config.Section>): (h: Option<Config.Setting>)
    ensures "globals" in secs && "hide_progress" in secs["globals"] ==> h == Some(secs["globals"]["hide_progress"])
    ensures "globals" in secs && "hide_progress" !in secs["globals"] ==> h == Lookup(secs, "create_tags", "hide_progress")
    ensures "globals" !in secs ==> h.None?
  {
    if "globals" !in secs then None
    else if "hide_progress" in secs["globals"] then Some(secs["globals"]["hide_progress"])
    else Lookup(secs, "create_tags", "hide_progress")
  }

  // ---------------------------------------------------------------------------
  // The creation loops

  /** One `create_tag(name, category[, overwrite])` call. */
  datatype TagCall = TagCall(name: Value, category: Option<string>, overwrite: Option<Config.Setting>)

  /** How a call ends: the tag is created, `TagExistsError` (swallowed), or any
      other exception (which ends the run). */
  datatype CallResult = Created | Exists | Raises

  /** The calls a loop made, and whether it reached its end. */
  datatype Progress = Progress(calls: seq<TagCall>, finished: bool)

  /** A creation loop over `items`: `call` gives each item's call, or `None`
      where building it raises; the loop stops at the first exception other
      than `TagExistsError`. */
  function Calls<T>(items: seq<T>, call: T -> Option<TagCall>, create: TagCall -> CallResult): (p: Progress)
    ensures |p.calls| <= |items|
  {
    if items == [] then Progress([], true)
    else
      match call(items[0])
      case None => Progress([], false)
      case Some(c) =>
        if create(c) == Raises then Progress([c], false)
        else
          var rest := Calls(items[1..], call, create);
          Progress([c] + rest.calls, rest.finished)
  }

  /** The loop's calls are the items' calls, in order, from the first item on;
      every call but the last returned, and a finished loop made one call per
      item, none of them raising. */
  lemma {:induction false} CallsInOrder<T>(items: seq<T>, call: T -> Option<TagCall>, create: TagCall -> CallResult)
    ensures var p := Calls(items, call, create);
      && (forall i :: 0 <= i < |p.calls| ==> call(items[i]) == Some(p.calls[i]))
      && (forall i :: 0 <= i < |p.calls| - 1 ==> create(p.calls[i]) != Raises)
      && (p.finished ==> |p.calls| == |items| && forall c <- p.calls :: create(c) != Raises)
  {
    if items != [] && call(items[0]).Some? && create(call(items[0]).value) != Raises {
      CallsInOrder(items[1..], call, create);
    }
  }

  /** An existing tag does not stop the loop: when every call can be built and
      none raises, there is one call per item, in order, and the loop finishes. */
  lemma {:induction false} CallsComplete<T>(items: seq<T>, call: T -> Option<TagCall>, create: TagCall -> CallResult)
    requires forall t <- items :: call(t).Some? && create(call(t).value) != Raises
    ensures Calls(items, call, create).finished && |Calls(items, call, create).calls| == |items|
    ensures forall i :: 0 <= i < |items| ==> Calls(items, call, create).calls[i] == call(items[i]).value
  {
    if items != [] {
      assert forall t <- items[1..] :: t in items;
      CallsComplete(items[1..], call, create);
    }
  }

  /** The first item whose call cannot be built, or raises, ends the loop:
      nothing after it is called. */
  lemma {:induction false} CallsStopAt<T>(items: seq<T>, k: nat, call: T -> Option<TagCall>, create: TagCall -> CallResult)
    requires k < |items| && (call(items[k]).None? || create(call(items[k]).value) == Raises)
    ensures !Calls(items, call, create).finished
    ensures |Calls(items, call, create).calls| <= k + 1
  {
    if k > 0 && call(items[0]).Some? && create(call(items[0]).value) != Raises {
      CallsStopAt(items[1..], k - 1, call, create);
    }
  }

  /** One more item after a loop that finished: its call is appended, and the
      loop goes on exactly when that call could be built and did not raise. */
  lemma {:induction false} CallsSnoc<T>(items: seq<T>, item: T, call: T -> Option<TagCall>, create: TagCall -> CallResult)
    requires Calls(items, call, create).finished
    ensures var before := Calls(items, call, create).calls;
      Calls(items + [item], call, create)
        == match call(item)
           case None => Progress(before, false)
           case Some(c) => Progress(before + [c], create(c) != Raises)
  {
    if items == [] {
      assert items + [item] == [item];
    } else {
      assert (items + [item])[0] == items[0];
      assert (items + [item])[1..] == items[1..] + [item];
      CallsSnoc(items[1..], item, call, create);
    }
  }


  /** Once the loop over a prefix stopped, the rest of the items change nothing. */
  lemma {:induction false} CallsStop<T>(items: seq<T>, k: nat, call: T -> Option<TagCall>, create: TagCall -> CallResult)
    requires 0 < k <= |items| && !Calls(items[..k], call, create).finished
    ensures Calls(items, call, create) == Calls(items[..k], call, create)
  {
    assert items[..k][0] == items[0];
    if call(items[0]).Some? && create(call(items[0]).value) != Raises {
      assert items[..k][1..] == items[1..][..k - 1];
      CallsStop(items[1..], k - 1, call, create);
    }
  }

  /** The call for one tag-file line: the name and category as written, no
      `overwrite`; `None` for a line without a comma. */
  function LineCall(line: string): (c: Option<TagCall>)
    ensures c.Some? ==> c.value.name.Text? && ',' !in c.value.name.text && c.value.overwrite.None?
  {
    var tag := ParseTagLine(line);
    if tag.category.None? then None else Some(TagCall(Text(tag.name), tag.category, None))
  }

  /** The tag-file loop of `main`. */
  function LineCalls(lines: seq<string>, create: TagCall -> CallResult): Progress {
    Calls(lines, LineCall, create)
  }

  /** Tag-file lines written as `name,category` are created in order, one call
      each, when no call raises; an existing tag is skipped silently. */
  lemma FormattedLinesCreated(names: seq<string>, categories: seq<string>, create: TagCall -> CallResult)
    requires |names| == |categories|
    requires forall i :: 0 <= i < |names| ==> NoSpace(names[i]) && ',' !in names[i]
    requires forall i :: 0 <= i < |names| ==> NoSpace(categories[i]) && ',' !in categories[i]
    requires forall i :: 0 <= i < |names| ==> create(TagCall(Text(names[i]), Some(categories[i]), None)) != Raises
    ensures var lines := seq(|names|, i requires 0 <= i < |names| => names[i] + "," + categories[i] + "\n");
      var p := LineCalls(lines, create);
      p.finished && |p.calls| == |names|
      && forall i :: 0 <= i < |names| ==> p.calls[i] == TagCall(Text(names[i]), Some(categories[i]), None)
  {
    var lines := seq(|names|, i requires 0 <= i < |names| => names[i] + "," + categories[i] + "\n");
    forall i | 0 <= i < |names|
      ensures LineCall(lines[i]) == Some(TagCall(Text(names[i]), Some(categories[i]), None))
    {
      ParseTagLineOfFormatted(names[i], categories[i]);
    }
    CallsComplete(lines, LineCall, create);
  }

  /** A line without a comma ends the run before its own call. */
  lemma NoCommaEndsRun(lines: seq<string>, k: nat, create: TagCall -> CallResult)
    requires k < |lines| && ',' !in RemoveChar(Strip(lines[k]), ' ')
    ensures !LineCalls(lines, create).finished && |LineCalls(lines, create).calls| <= k
  {
    CallsStopAt(lines, k, LineCall, create);
    NoCallNoGrowth(lines, k, LineCall, create);
  }

  /** When item `k` cannot even be built, at most `k` calls were made. */
  lemma {:induction false} NoCallNoGrowth<T>(items: seq<T>, k: nat, call: T -> Option<TagCall>, create: TagCall -> CallResult)
    requires k < |items| && call(items[k]).None?
    ensures |Calls(items, call, create).calls| <= k
  {
    if k > 0 && call(items[0]).Some? && create(call(items[0]).value) != Raises {
      NoCallNoGrowth(items[1..], k - 1, call, create);
    }
  }

  /** A creation loop as `main` runs it: build each item's call, make it, and
      stop at the first exception that is not `TagExistsError`. */
  method CreateEach<T>(items: seq<T>, call: T -> Option<TagCall>, create: TagCall -> CallResult) returns (p: Progress)
    ensures p == Calls(items, call, create)
  {
    var calls: seq<TagCall> := [];
    for i := 0 to |items|
      invariant Calls(items[..i], call, create) == Progress(calls, true)
    {
      CallsSnoc(items[..i], items[i], call, create);
      assert items[..i + 1] == items[..i] + [items[i]];
      var c := call(items[i]);
      if c.None? {
        CallsStop(items, i + 1, call, create);
        return Progress(calls, false);
      }
      calls := calls + [c.value];
      if create(c.value) == Raises {
        CallsStop(items, i + 1, call, create);
        return Progress(calls, false);
      }
    }
    assert items[..|items|] == items;
    return Progress(calls, true);
  }

  /** The call for one Danbooru tag record: `tag['name']`, its converted
      category, and `overwrite`; `None` when a key is missing (`KeyError`). */
  function RecordCall(tag: Record, overwrite: Config.Setting): (c: Option<TagCall>)
    ensures c.Some? <==> "name" in tag && "category" in tag
    ensures c.Some? ==> c.value.overwrite == Some(overwrite)
  {
    if "name" in tag && "category" in tag then Some(TagCall(tag["name"], ConvertTagCategory(tag["category"]), Some(overwrite)))
    else None
  }

  /** The tags of the pages, page after page. */
  function Concat(pages: seq<seq<Record>>): seq<Record> {
    if pages == [] then [] else Concat(pages[..|pages| - 1]) + pages[|pages| - 1]
  }

  /** The Danbooru loop of `main` over the tags of all pages. */
  function PageCalls(pages: seq<seq<Record>>, overwrite: Config.Setting, create: TagCall -> CallResult): Progress {
    Calls(Concat(pages), t => RecordCall(t, overwrite), create)
  }

  /** Every tag of every page, page by page and in page order, gets one call
      with its name, converted category and `overwrite`, when none raises. */
  lemma PagesCreated(pages: seq<seq<Record>>, overwrite: Config.Setting, create: TagCall -> CallResult)
    requires forall p <- pages :: forall t <- p ::
      ("name" in t && "category" in t
       && create(TagCall(t["name"], ConvertTagCategory(t["category"]), Some(overwrite))) != Raises)
    ensures var tags := Concat(pages); var p := PageCalls(pages, overwrite, create);
      p.finished && |p.calls| == |tags|
      && forall i :: 0 <= i < |tags| ==> ("name" in tags[i] && "category" in tags[i]
        && p.calls[i] == TagCall(tags[i]["name"], ConvertTagCategory(tags[i]["category"]), Some(overwrite)))
  {
    ConcatMembers(pages);
    CallsComplete(Concat(pages), t => RecordCall(t, overwrite), create);
  }

  /** Every tag of the concatenation comes from some page. */
  lemma {:induction false} ConcatMembers(pages: seq<seq<Record>>)
    ensures forall t <- Concat(pages) :: exists p <- pages :: t in p
  {
    if pages != [] {
      ConcatMembers(pages[..|pages| - 1]);
      assert forall p <- pages[..|pages| - 1] :: p in pages;
    }
  }

  /** `for result in results: for tag in result: create_tag(...)`. */
  method CreateFromPages(pages: seq<seq<Record>>, overwrite: Config.Setting, create: TagCall -> CallResult)
    returns (p: Progress)
    ensures p == PageCalls(pages, overwrite, create)
  {
    var call := t => RecordCall(t, overwrite);
    var calls: seq<TagCall> := [];
    for i := 0 to |pages|
      invariant Calls(Concat(pages[..i]), call, create) == Progress(calls, true)
    {
      var page := pages[i];
      assert pages[..i + 1][..i] == pages[..i];
      assert Concat(pages[..i + 1]) == Concat(pages[..i]) + page;
      assert page[..0] == [];
      assert Concat(pages[..i]) + page[..0] == Concat(pages[..i]);
      for j := 0 to |page|
        invariant Calls(Concat(pages[..i]) + page[..j], call, create) == Progress(calls, true)
      {
        var done := Concat(pages[..i]) + page[..j];
        CallsSnoc(done, page[j], call, create);
        assert done + [page[j]] == Concat(pages[..i]) + page[..j + 1];
        if !("name" in page[j] && "category" in page[j]) {
          PagesStop(pages, i, j, call, create);
          return Progress(calls, false);
        }
        var c := TagCall(page[j]["name"], ConvertTagCategory(page[j]["category"]), Some(overwrite));
        calls := calls + [c];
        if create(c) == Raises {
          PagesStop(pages, i, j, call, create);
          return Progress(calls, false);
        }
      }
      assert page[..|page|] == page;
    }
    assert pages[..|pages|] == pages;
    return Progress(calls, true);
  }

  lemma {:induction false} ConcatPrefix(pages: seq<seq<Record>>, i: nat)
    requires i <= |pages|
    ensures exists rest :: Concat(pages) == Concat(pages[..i]) + rest
    decreases |pages| - i
  {
    if i == |pages| {
      assert pages[..i] == pages;
      assert Concat(pages) == Concat(pages[..i]) + [];
    } else {
      ConcatPrefix(pages, i + 1);
      var rest :| Concat(pages) == Concat(pages[..i + 1]) + rest;
      assert pages[..i + 1][..i] == pages[..i];
      assert Concat(pages) == Concat(pages[..i]) + (pages[i] + rest);
    }
  }

  /** A stop on tag `j` of page `i` ends the whole loop there. */
  lemma PagesStop(pages: seq<seq<Record>>, i: nat, j: nat, call: Record -> Option<TagCall>, create: TagCall -> CallResult)
    requires i < |pages| && j < |pages[i]|
    requires !Calls(Concat(pages[..i]) + pages[i][..j + 1], call, create).finished
    ensures Calls(Concat(pages), call, create) == Calls(Concat(pages[..i]) + pages[i][..j + 1], call, create)
  {
    var done := Concat(pages[..i]) + pages[i][..j + 1];
    ConcatPrefix(pages, i + 1);
    var rest :| Concat(pages) == Concat(pages[..i + 1]) + rest;
    assert pages[..i + 1][..i] == pages[..i];
    assert pages[i] == pages[i][..j + 1] + pages[i][j + 1..];
    assert Concat(pages) == done + (pages[i][j + 1..] + rest);
    assert Concat(pages)[..|done|] == done;
    CallsStop(Concat(pages), |done|, call, create);
  }

  // ---------------------------------------------------------------------------
  // main

  /** `create_tags.main`: `tagFile` is the `tag_file` argument and `lines` that
      file's lines; `fetch` answers the Danbooru tag-page requests. Missing or
      non-numeric settings raise before any call. */
  method RunScript(cfg: Config.Settings, tagFile: string, lines: seq<string>,
              fetch: string -> Option<seq<Record>>, create: TagCall -> CallResult) returns (p: Progress)
    ensures var secs := cfg.sections;
      var minPostCount, limit := Lookup(secs, "create_tags", "min_post_count"), Lookup(secs, "create_tags", "limit");
      var overwrite, query := Lookup(secs, "create_tags", "overwrite"), Lookup(secs, "create_tags", "query");
      var ready := minPostCount.Some? && IntOf(minPostCount.value).Some? && limit.Some? && IntOf(limit.value).Some?
        && overwrite.Some? && HideProgress(secs).Some?;
      && (!ready ==> p == Progress([], false))
      && (ready && tagFile != "" ==> p == LineCalls(lines, create))
      && (ready && tagFile == "" && !(query.Some? && query.value.Text?) ==> p == Progress([], false))
      && (ready && tagFile == "" && query.Some? && query.value.Text? ==>
            var urls := DanbooruClient.TagUrls(query.value.s, IntOf(minPostCount.value).value, IntOf(limit.value).value);
            p == PageCalls(DanbooruClient.Fetched(urls, fetch), overwrite.value, create))
  {
    var secs := cfg.sections;
    var minPostCount := Lookup(secs, "create_tags", "min_post_count");
    if minPostCount.None? || IntOf(minPostCount.value).None? {
      return Progress([], false);
    }
    var limit := Lookup(secs, "create_tags", "limit");
    if limit.None? || IntOf(limit.value).None? {
      return Progress([], false);
    }
    var overwrite := Lookup(secs, "create_tags", "overwrite");
    if overwrite.None? || HideProgress(secs).None? {
      return Progress([], false);
    }
    if tagFile != "" {
      p := CreateEach(lines, LineCall, create);
    } else {
      var query := Lookup(secs, "create_tags", "query");
      if query.None? || !query.value.Text? {
        return Progress([], false);
      }
      p := CreateFromQuery(query.value.s, IntOf(minPostCount.value).value, IntOf(limit.value).value,
                           overwrite.value, fetch, create);
    }
  }

  /** The Danbooru branch of `main`: download the tag pages, then create
      every tag on them. */
  method CreateFromQuery(query: string, minPostCount: int, limit: int, overwrite: Config.Setting,
                         fetch: string -> Option<seq<Record>>, create: TagCall -> CallResult) returns (p: Progress)
    ensures p == PageCalls(DanbooruClient.Fetched(DanbooruClient.TagUrls(query, minPostCount, limit), fetch),
                           overwrite, create)
  {
    var _, pages := DanbooruClient.DownloadTags(query, minPostCount, limit, fetch);
    p := CreateFromPages(pages, overwrite, create);
  }
}
