/** The booru import pipeline (`scripts/import_from_booru.py`): which backends
    a selector names, how each backend's posts are retrieved, how one post is
    turned into a file name and upload metadata, and the run over backends
    and posts, including the configuration toggles set before it.

    The booru clients, the download, `convert_rating` and the upload are
    parameters: each client call gives its reply or `None` when it raises. */
module ImportFromBooru {
  import opened Wrappers
  import opened Strings
  import opened Json
  import Config

  // ---------------------------------------------------------------------------
  // Backends and the selector

  datatype Booru = Danbooru | Gelbooru | Yandere | Konachan

  /** The name a backend goes by on the command line and in `import_post`. */
  function Name(b: Booru): string {
    match b
    case Danbooru => "danbooru"
    case Gelbooru => "gelbooru"
    case Yandere => "yandere"
    case Konachan => "konachan"
  }

  /** The client `main` builds for a backend name; `None` for a name it has no
      branch for (such as "sankaku"), which leaves `booru_client` unbound. */
  function ParseBooru(name: string): (b: Option<Booru>)
    ensures b.Some? ==> Name(b.value) == name
  {
    if name == "danbooru" then Some(Danbooru)
    else if name == "gelbooru" then Some(Gelbooru)
    else if name == "yandere" then Some(Yandere)
    else if name == "konachan" then Some(Konachan)
    else None
  }

  lemma ParseName(b: Booru)
    ensures ParseBooru(Name(b)) == Some(b)
  {
  }

  const AllBoorus: seq<string> := ["danbooru", "gelbooru", "yandere", "konachan"]

  /** The backends `main` walks for a selector: "all" names every backend,
      anything else names itself alone. */
  function Boorus(selector: string): (names: seq<string>)
    ensures |names| >= 1
    ensures selector != "all" ==> names == [selector]
  {
    if selector == "all" then AllBoorus else [selector]
  }

  /** "all" names each backend exactly once, Danbooru, Gelbooru, Yandere,
      Konachan in that order; and a name without a client can only be a
      selector that named itself alone. */
  lemma BoorusAll(selector: string)
    ensures Boorus("all") == [Name(Danbooru), Name(Gelbooru), Name(Yandere), Name(Konachan)]
    ensures forall b: Booru :: Name(b) in Boorus("all")
    ensures forall i, j :: 0 <= i < j < |Boorus("all")| ==> Boorus("all")[i] != Boorus("all")[j]
    ensures forall n <- Boorus(selector) :: ParseBooru(n).None? ==> Boorus(selector) == [n]
  {
  }

  // ---------------------------------------------------------------------------
  // get_posts_from_booru

  /** A post as a client returns it: a JSON object from pybooru, or a
      `GelbooruImage` with attributes. */
  datatype Post = Fields(fields: Record) | GelbooruImage(fileUrl: string, id: int, tags: seq<string>, rating: Value)

  /** A request to a booru API. */
  datatype Request = CountPosts(tags: string) | PostList(limit: nat, page: Option<nat>, tags: string) | SearchPosts(words: seq<string>)

  /** The booru APIs: `count(tags)` is the `['counts']['posts']` of
      `count_posts`, `list(b, page, tags)` the reply of backend `b`'s
      `post_list(limit=100, ...)`, and `search(words)` Gelbooru's
      `search_posts`; `None` is an exception. */
  datatype Api = Api(count: string -> Option<int>,
                     list: (Booru, Option<nat>, string) -> Option<seq<Post>>,
                     search: seq<string> -> Option<seq<Post>>)

  const Exclude := " -pixel-perfect-duplicate -duplicate"
  const PageSize: nat := 100

  /** `ceil(total / 100)`. */
  function Pages(total: int): (pages: int)
    ensures (pages - 1) * 100 < total <= pages * 100
  {
    -((-total) / 100)
  }

  /** For a non-negative total, `ceil(total / 100)` is `(total + 99) div 100`,
      and more than one page means more than 100 posts. */
  lemma PagesOfNat(total: nat)
    ensures Pages(total) == (total + 99) / 100
    ensures Pages(total) > 1 <==> total > 100
  {
  }

  /** Danbooru pages `1..n`, in order, each with 100 posts at most; `None` if
      one of the requests raised (the later ones are not made). */
  function ListPages(api: Api, tags: string, n: nat): (r: Option<seq<seq<Post>>>)
    ensures r.Some? ==> |r.value| == n
  {
    if n == 0 then Some([])
    else match ListPages(api, tags, n - 1)
      case None => None
      case Some(rs) => match api.list(Danbooru, Some(n), tags)
        case None => None
        case Some(page) => Some(rs + [page])
  }

  /** Every fetched page sits at its own position. */
  lemma {:induction false} ListPagesInOrder(api: Api, tags: string, n: nat)
    requires ListPages(api, tags, n).Some?
    ensures forall i :: 0 <= i < n ==> Some(ListPages(api, tags, n).value[i]) == api.list(Danbooru, Some(i + 1), tags)
  {
    if n > 0 {
      ListPagesInOrder(api, tags, n - 1);
    }
  }

  /** `[post for page in pages for post in page]`. */
  function Flatten(pages: seq<seq<Post>>): (posts: seq<Post>)
    ensures pages == [] ==> posts == []
  {
    if pages == [] then [] else Flatten(pages[..|pages| - 1]) + pages[|pages| - 1]
  }

  /** Flattening keeps page order, then in-page order. */
  lemma {:induction false} FlattenAppend(a: seq<seq<Post>>, b: seq<seq<Post>>)
    ensures Flatten(a + b) == Flatten(a) + Flatten(b)
    decreases |b|
  {
    if b == [] {
      assert a + b == a;
    } else {
      assert (a + b)[..|a + b| - 1] == a + b[..|b| - 1];
      FlattenAppend(a, b[..|b| - 1]);
    }
  }

  /** The posts `get_posts_from_booru` yields after the total, or `None` when
      a client call raised. */
  function Retrieve(booru: Booru, query: string, api: Api): (r: Option<seq<Post>>)
    ensures booru == Gelbooru ==> r == api.search(Words(query))
    ensures booru == Yandere || booru == Konachan ==> r == api.list(booru, None, query + Exclude)
    ensures booru == Danbooru ==>
      var count := api.count(query + Exclude);
      && (r.Some? <==> count.Some? && (Pages(count.value) > 1 ==> ListPages(api, query + Exclude, Pages(count.value)).Some?))
      && (r.Some? && Pages(count.value) <= 1 ==> r.value == [])
      && (r.Some? && Pages(count.value) > 1 ==>
            r.value == Flatten(ListPages(api, query + Exclude, Pages(count.value)).value))
  {
    match booru
    case Gelbooru => api.search(Words(query))
    case Danbooru =>
      (match api.count(query + Exclude)
       case None => None
       case Some(total) =>
         if Pages(total) > 1 then
           match ListPages(api, query + Exclude, Pages(total))
           case None => None
           case Some(pages) => Some(Flatten(pages))
         else Some([]))
    case _ => api.list(booru, None, query + Exclude)
  }

  /** The requests `get_posts_from_booru` makes, in order. */
  function Requests(booru: Booru, query: string, api: Api): (rs: seq<Request>)
    ensures booru == Gelbooru ==> rs == [SearchPosts(Words(query))]
    ensures booru == Yandere || booru == Konachan ==> rs == [PostList(PageSize, None, query + Exclude)]
    ensures booru == Danbooru ==>
      && |rs| >= 1 && rs[0] == CountPosts(query + Exclude)
      && (forall i :: 1 <= i < |rs| ==> rs[i] == PostList(PageSize, Some(i), query + Exclude))
      && (api.count(query + Exclude).None? ==> |rs| == 1)
      && (api.count(query + Exclude).Some? ==>
            var pages := Pages(api.count(query + Exclude).value);
            && (pages <= 1 ==> |rs| == 1)
            && (pages > 1 ==> |rs| <= pages + 1)
            && (Retrieve(booru, query, api).Some? && pages > 1 ==> |rs| == pages + 1))
  {
    match booru
    case Gelbooru => [SearchPosts(Words(query))]
    case Danbooru =>
      var tags := query + Exclude;
      [CountPosts(tags)] +
        (match api.count(tags)
         case None => []
         case Some(total) => if Pages(total) > 1 then PageRequests(api, tags, Pages(total)) else [])
    case _ => [PostList(PageSize, None, query + Exclude)]
  }

  /** The page requests made while fetching pages `1..n`: up to and including
      the first that raised. */
  function PageRequests(api: Api, tags: string, n: nat): (rs: seq<Request>)
    ensures |rs| <= n
    ensures forall i :: 0 <= i < |rs| ==> rs[i] == PostList(PageSize, Some(i + 1), tags)
    ensures ListPages(api, tags, n).Some? ==> |rs| == n
  {
    if n == 0 then []
    else
      var before := PageRequests(api, tags, n - 1);
      if ListPages(api, tags, n - 1).None? then before else before + [PostList(PageSize, Some(n), tags)]
  }

  /** Danbooru with at most 100 matching posts: one page or none, so no page
      is requested and nothing but a zero total is yielded. */
  lemma SmallDanbooruYieldsNothing(query: string, api: Api)
    requires api.count(query + Exclude).Some? && api.count(query + Exclude).value <= 100
    ensures Retrieve(Danbooru, query, api) == Some([])
    ensures Requests(Danbooru, query, api) == [CountPosts(query + Exclude)]
  {
  }

  /** The stream `get_posts_from_booru` yields: the total, then the posts. */
  datatype Stream = Stream(total: nat, posts: seq<Post>)

  /** `get_posts_from_booru`: `r` is `None` when a client call raised;
      `requests` are the calls made. Danbooru's pages are fetched in a loop. */
  method GetPostsFromBooru(booru: Booru, query: string, api: Api) returns (r: Option<Stream>, requests: seq<Request>)
    ensures r.Some? ==> r.value.total == |r.value.posts|
    ensures r.Some? <==> Retrieve(booru, query, api).Some?
    ensures r.Some? ==> r.value.posts == Retrieve(booru, query, api).value
    ensures requests == Requests(booru, query, api)
  {
    var exclude := Exclude;
    var results: seq<Post>;
    match booru {
      case Gelbooru =>
        requests := [SearchPosts(Words(query))];
        var found := api.search(Words(query));
        if found.None? {
          return None, requests;
        }
        results := found.value;
      case Danbooru =>
        var tags := query + exclude;
        requests := [CountPosts(tags)];
        var counted := api.count(tags);
        if counted.None? {
          return None, requests;
        }
        var pages := Pages(counted.value);
        var pageLists: seq<seq<Post>> := [];
        if pages > 1 {
          var listed, pageRequests := ListDanbooruPages(api, tags, pages);
          requests := requests + pageRequests;
          if listed.None? {
            return None, requests;
          }
          pageLists := listed.value;
        }
        results := Flatten(pageLists);
      case _ =>
        requests := [PostList(PageSize, None, query + exclude)];
        var listed := api.list(booru, None, query + exclude);
        if listed.None? {
          return None, requests;
        }
        results := listed.value;
    }
    return Some(Stream(|results|, results)), requests;
  }

  /** The `for page in range(1, pages + 1)` loop of the Danbooru branch: the
      pages in order, or `None` once a request raised, with the requests made. */
  method ListDanbooruPages(api: Api, tags: string, pages: nat) returns (r: Option<seq<seq<Post>>>, requests: seq<Request>)
    ensures r == ListPages(api, tags, pages)
    ensures requests == PageRequests(api, tags, pages)
  {
    var pageLists: seq<seq<Post>> := [];
    requests := [];
    var page := 1;
    while page <= pages
      invariant 1 <= page <= pages + 1
      invariant ListPages(api, tags, page - 1) == Some(pageLists)
      invariant requests == PageRequests(api, tags, page - 1)
    {
      var list := api.list(Danbooru, Some(page), tags);
      requests := requests + [PostList(PageSize, Some(page), tags)];
      if list.None? {
        ListPagesStaysFailed(api, tags, page, pages);
        return None, requests;
      }
      pageLists := pageLists + [list.value];
      page := page + 1;
    }
    return Some(pageLists), requests;
  }

  /** Once a page request raised, the fetch as a whole raised, and no further
      page is requested. */
  lemma {:induction false} ListPagesStaysFailed(api: Api, tags: string, k: nat, n: nat)
    requires 1 <= k <= n && ListPages(api, tags, k).None?
    ensures ListPages(api, tags, n).None?
    ensures PageRequests(api, tags, n) == PageRequests(api, tags, k)
    decreases n - k
  {
    if k < n {
      ListPagesStaysFailed(api, tags, k + 1, n);
    }
  }

  // ---------------------------------------------------------------------------
  // import_post

  /** The metadata handed to `upload_media.main`. */
  datatype Metadata = Metadata(tags: seq<string>, safety: string, source: string)

  /** What `import_post` does with one post: skip it because it has no
      `file_url`, skip it because the download raised, upload it, or raise
      (which ends the run). */
  datatype PostOutcome = NoFileUrl | DownloadFailed | Uploaded(filename: string, meta: Metadata) | Crashed

  const GelbooruSource := "https://gelbooru.com/index.php?page=post&s=view&id="
  const DanbooruSource := "https://danbooru.donmai.us/posts/"
  const YandereSource := "https://yande.re/post/show/"
  const KonachanSource := "https://konachan.com/post/show/"

  /** The `source` prefix of each backend. */
  function SourcePrefix(b: Booru): string {
    match b
    case Gelbooru => GelbooruSource
    case Danbooru => DanbooruSource
    case Yandere => YandereSource
    case Konachan => KonachanSource
  }

  /** The key of the space-separated tag list in a pybooru post. */
  function TagKey(b: Booru): string {
    if b == Danbooru then "tag_string" else "tags"
  }

  /** `post.file_url` or `post['file_url']`: `Some(None)` for the `KeyError`
      that skips the post, `None` for an attribute or type error that raises. */
  function FileUrl(booru: Booru, post: Post): Option<Option<Value>> {
    match post
    case GelbooruImage(url, _, _, _) => if booru == Gelbooru then Some(Some(Text(url))) else None
    case Fields(fields) =>
      if booru == Gelbooru then None
      else if "file_url" in fields then Some(Some(fields["file_url"]))
      else Some(None)
  }

  /** After a successful download, building the upload raises: `convert_rating`
      raises, or a pybooru post lacks its tag key, `id` or `rating`, or its tag
      value is not text (no `split`). None of these is caught in `import_post`. */
  predicate UploadRaises(booru: Booru, post: Post, convert: Value -> Option<string>) {
    match post
    case GelbooruImage(_, _, _, rating) => convert(rating).None?
    case Fields(fields) =>
      || TagKey(booru) !in fields || !fields[TagKey(booru)].Text?
      || "id" !in fields || "rating" !in fields
      || convert(fields["rating"]).None?
  }

  /** `import_post`: `download(url)` tells whether `urlretrieve` succeeded and
      `convert` is `convert_rating` (`None` when it raises). Only a missing
      `file_url` and a failed download skip a post. */
  function ImportPost(booru: Booru, post: Post, download: string -> bool, convert: Value -> Option<string>): (o: PostOutcome)
    ensures o == NoFileUrl <==> booru != Gelbooru && post.Fields? && "file_url" !in post.fields
    ensures o == DownloadFailed <==>
      FileUrl(booru, post).Some? && FileUrl(booru, post).value.Some?
      && FileUrl(booru, post).value.value.Text? && !download(FileUrl(booru, post).value.value.text)
    ensures o.Crashed? <==>
      || FileUrl(booru, post).None?
      || (FileUrl(booru, post).value.Some? && !FileUrl(booru, post).value.value.Text?)
      || (FileUrl(booru, post).value.Some? && FileUrl(booru, post).value.value.Text?
          && download(FileUrl(booru, post).value.value.text) && UploadRaises(booru, post, convert))
  {
    match FileUrl(booru, post)
    case None => Crashed
    case Some(None) => NoFileUrl
    case Some(Some(v)) =>
      if !v.Text? then Crashed
      else
        var filename := LastField(v.text, '/');
        if !download(v.text) then DownloadFailed
        else
          match post
          case GelbooruImage(_, id, tags, rating) =>
            (match convert(rating)
             case None => Crashed
             case Some(safety) => Uploaded(filename, Metadata(tags, safety, GelbooruSource + IntToString(id))))
          case Fields(fields) =>
            var key := TagKey(booru);
            if key !in fields || !fields[key].Text? || "id" !in fields || "rating" !in fields then Crashed
            else
              match convert(fields["rating"])
              case None => Crashed
              case Some(safety) =>
                Uploaded(filename, Metadata(Words(fields[key].text), safety, SourcePrefix(booru) + Str(fields["id"])))
  }

  /** An uploaded post is saved under the part of its file URL after the last
      `/`, with the backend's source prefix followed by its id. */
  lemma ImportPostUploads(booru: Booru, post: Post, download: string -> bool, convert: Value -> Option<string>)
    requires ImportPost(booru, post, download, convert).Uploaded?
    ensures var o, url := ImportPost(booru, post, download, convert), FileUrl(booru, post).value.value.text;
      && download(url)
      && '/' !in o.filename && o.filename == url[|url| - |o.filename|..]
      && (|o.filename| < |url| ==> url[|url| - |o.filename| - 1] == '/')
      && StartsWith(o.meta.source, SourcePrefix(booru))
  {
    var o := ImportPost(booru, post, download, convert);
    var url := FileUrl(booru, post).value.value.text;
    assert o.filename == LastField(url, '/');
    var p := SourcePrefix(booru);
    match post {
      case GelbooruImage(_, id, _, _) =>
        assert o.meta.source == p + IntToString(id);
      case Fields(fields) =>
        assert o.meta.source == p + Str(fields["id"]);
    }
    assert o.meta.source[..|p|] == p;
  }

  /** A well-formed pybooru post is uploaded with the words of its tag text,
      its converted rating and its id after the backend's source prefix. */
  lemma ImportRecord(booru: Booru, fields: Record, download: string -> bool, convert: Value -> Option<string>)
    requires booru != Gelbooru
    requires "file_url" in fields && fields["file_url"].Text? && download(fields["file_url"].text)
    requires TagKey(booru) in fields && fields[TagKey(booru)].Text? && "id" in fields
    requires "rating" in fields && convert(fields["rating"]).Some?
    ensures ImportPost(booru, Fields(fields), download, convert) ==
      Uploaded(LastField(fields["file_url"].text, '/'),
               Metadata(Words(fields[TagKey(booru)].text), convert(fields["rating"]).value,
                        SourcePrefix(booru) + Str(fields["id"])))
  {
  }

  /** A Gelbooru image keeps its own tag list. */
  lemma ImportGelbooruImage(url: string, id: int, tags: seq<string>, rating: Value,
                            download: string -> bool, convert: Value -> Option<string>)
    requires download(url) && convert(rating).Some?
    ensures ImportPost(Gelbooru, GelbooruImage(url, id, tags, rating), download, convert) ==
      Uploaded(LastField(url, '/'), Metadata(tags, convert(rating).value, GelbooruSource + IntToString(id)))
  {
  }

  // ---------------------------------------------------------------------------
  // The loop over posts

  /** `import_post` for one backend, as a function of the post. */
  function Importer(booru: Booru, download: string -> bool, convert: Value -> Option<string>): Post -> PostOutcome {
    post => ImportPost(booru, post, download, convert)
  }

  /** The outcomes of importing `posts` one after the other, up to and
      including the first that raised. */
  function ImportAll(posts: seq<Post>, one: Post -> PostOutcome)
    : (outcomes: seq<PostOutcome>)
    ensures |outcomes| <= |posts|
    ensures forall i :: 0 <= i < |outcomes| ==> outcomes[i] == one(posts[i])
    ensures forall i :: 0 <= i < |outcomes| - 1 ==> !outcomes[i].Crashed?
    ensures |outcomes| < |posts| ==> outcomes != [] && outcomes[|outcomes| - 1].Crashed?
  {
    if posts == [] then []
    else
      var o := one(posts[0]);
      if o.Crashed? then [o] else [o] + ImportAll(posts[1..], one)
  }

  /** Posts are imported independently: when none raises, there is one outcome
      per post, each depending on that post alone, and skipped posts do not
      stop the loop. */
  lemma {:induction false} ImportAllIsolates(posts: seq<Post>, one: Post -> PostOutcome)
    requires forall p <- posts :: !one(p).Crashed?
    ensures |ImportAll(posts, one)| == |posts|
    ensures forall i :: 0 <= i < |posts| ==> ImportAll(posts, one)[i] == one(posts[i])
  {
    if posts != [] {
      assert forall p <- posts[1..] :: p in posts;
      ImportAllIsolates(posts[1..], one);
    }
  }

  /** A raising post ends the loop: nothing after it is imported. */
  lemma {:induction false} ImportAllStopsAtCrash(posts: seq<Post>, k: nat, one: Post -> PostOutcome)
    requires k < |posts| && one(posts[k]).Crashed?
    ensures |ImportAll(posts, one)| <= k + 1
    ensures ImportAll(posts, one) != [] && ImportAll(posts, one)[|ImportAll(posts, one)| - 1].Crashed?
  {
    if !one(posts[0]).Crashed? {
      ImportAllStopsAtCrash(posts[1..], k - 1, one);
    }
  }

  /** The loop over posts goes through without a raise exactly when no post
      raises. */
  lemma ImportAllNoCrash(posts: seq<Post>, one: Post -> PostOutcome)
    ensures (forall o <- ImportAll(posts, one) :: !o.Crashed?) <==> forall p <- posts :: !one(p).Crashed?
  {
    if forall p <- posts :: !one(p).Crashed? {
      ImportAllIsolates(posts, one);
      forall o <- ImportAll(posts, one) ensures !o.Crashed? {
        var i :| 0 <= i < |ImportAll(posts, one)| && ImportAll(posts, one)[i] == o;
      }
    } else {
      var p :| p in posts && one(p).Crashed?;
      var k :| 0 <= k < |posts| && posts[k] == p;
      ImportAllStopsAtCrash(posts, k, one);
    }
  }

  lemma {:induction false} ImportAllSnoc(posts: seq<Post>, p: Post, one: Post -> PostOutcome)
    requires forall o <- ImportAll(posts, one) :: !o.Crashed?
    ensures ImportAll(posts + [p], one) == ImportAll(posts, one) + [one(p)]
  {
    if posts == [] {
      assert posts + [p] == [p];
    } else {
      assert (posts + [p])[1..] == posts[1..] + [p];
      ImportAllSnoc(posts[1..], p, one);
    }
  }

  /** The `for post in posts: import_post(booru, post)` loop, with `one` the
      backend's `import_post` (`Importer`); `ok` is false when a post raised. */
  method ImportPosts(posts: seq<Post>, one: Post -> PostOutcome)
    returns (outcomes: seq<PostOutcome>, ok: bool)
    ensures outcomes == ImportAll(posts, one)
    ensures ok <==> forall o <- outcomes :: !o.Crashed?
  {
    outcomes := [];
    for i := 0 to |posts|
      invariant outcomes == ImportAll(posts[..i], one)
      invariant forall o <- outcomes :: !o.Crashed?
    {
      ImportAllSnoc(posts[..i], posts[i], one);
      assert posts[..i + 1] == posts[..i] + [posts[i]];
      var o := one(posts[i]);
      outcomes := outcomes + [o];
      if o.Crashed? {
        ImportAllPrefixCrash(posts, i + 1, one);
        return outcomes, false;
      }
    }
    assert posts[..|posts|] == posts;
    return outcomes, true;
  }

  /** Once the outcomes of a prefix end in a raise, the rest of the posts
      add nothing. */
  lemma {:induction false} ImportAllPrefixCrash(posts: seq<Post>, k: nat, one: Post -> PostOutcome)
    requires 0 < k <= |posts|
    requires var pre := ImportAll(posts[..k], one);
      pre != [] && pre[|pre| - 1].Crashed?
    ensures ImportAll(posts, one) == ImportAll(posts[..k], one)
  {
    if !one(posts[0]).Crashed? {
      assert posts[..k][1..] == posts[1..][..k - 1];
      ImportAllPrefixCrash(posts[1..], k - 1, one);
    }
  }

  // ---------------------------------------------------------------------------
  // main

  /** What a run logs, in order: a backend's announced total, and each
      post's outcome. */
  datatype Event = Found(booru: Booru, total: nat) | Imported(booru: Booru, outcome: PostOutcome)

  /** A run, or part of one: its events, and whether it went on to the end
      rather than stopping at an exception caught by `@logger.catch`. */
  datatype Run = Run(events: seq<Event>, finished: bool)

  /** The events of importing one backend's retrieved posts. */
  function Tagged(booru: Booru, outcomes: seq<PostOutcome>): (events: seq<Event>)
    ensures |events| == |outcomes|
    ensures forall i :: 0 <= i < |outcomes| ==> events[i] == Imported(booru, outcomes[i])
  {
    if outcomes == [] then [] else [Imported(booru, outcomes[0])] + Tagged(booru, outcomes[1..])
  }

  /** One iteration of the loop over backend names: build the client,
      announce the total, import every post. An unknown name, a failing
      client call or a raising post stops the run. */
  function RunOne(name: string, query: string, api: Api, download: string -> bool,
                  convert: Value -> Option<string>): (run: Run)
    ensures run.finished <==>
      && ParseBooru(name).Some? && Retrieve(ParseBooru(name).value, query, api).Some?
      && forall p <- Retrieve(ParseBooru(name).value, query, api).value ::
           !ImportPost(ParseBooru(name).value, p, download, convert).Crashed?
    ensures run.events != [] ==> (ParseBooru(name).Some? && Retrieve(ParseBooru(name).value, query, api).Some?
      && run.events[0] == Found(ParseBooru(name).value, |Retrieve(ParseBooru(name).value, query, api).value|))
  {
    match ParseBooru(name)
    case None => Run([], false)
    case Some(b) =>
      match Retrieve(b, query, api)
      case None => Run([], false)
      case Some(posts) =>
        var outcomes := ImportAll(posts, Importer(b, download, convert));
        ImportAllNoCrash(posts, Importer(b, download, convert));
        Run([Found(b, |posts|)] + Tagged(b, outcomes), forall o <- outcomes :: !o.Crashed?)
  }

  /** `main`'s loop body as a function of the backend name. */
  function Iteration(query: string, api: Api, download: string -> bool, convert: Value -> Option<string>)
    : string -> Run
  {
    (name: string) => RunOne(name, query, api, download, convert)
  }

  /** The run over the backend names, one after the other (`one(name)` is one
      iteration), ending at the first iteration that does not finish. */
  function RunOver(names: seq<string>, one: string -> Run): (run: Run)
    ensures names == [] ==> run == Run([], true)
    ensures run.finished <==> forall i :: 0 <= i < |names| ==> one(names[i]).finished
  {
    if names == [] then Run([], true)
    else
      var head := one(names[0]);
      if !head.finished then head
      else
        var rest := RunOver(names[1..], one);
        Run(head.events + rest.events, rest.finished)
  }

  /** Running over `a + b` is running over `a`, then, only if that finished,
      over `b`: backends are processed in list order, and nothing after a
      stopped backend runs. */
  lemma {:induction false} RunOverAppend(a: seq<string>, b: seq<string>, one: string -> Run)
    ensures RunOver(a + b, one)
      == if RunOver(a, one).finished then Run(RunOver(a, one).events + RunOver(b, one).events, RunOver(b, one).finished)
         else RunOver(a, one)
  {
    if a == [] {
      assert a + b == b;
    } else {
      assert (a + b)[0] == a[0];
      assert (a + b)[1..] == a[1..] + b;
      RunOverAppend(a[1..], b, one);
    }
  }

  /** There is no per-backend isolation: when a backend's retrieval raises,
      the run stops there and the backends after it are never contacted. */
  lemma RetrievalFailureEndsRun(a: seq<string>, name: string, b: seq<string>, query: string, api: Api,
                                download: string -> bool, convert: Value -> Option<string>)
    requires ParseBooru(name).Some? && Retrieve(ParseBooru(name).value, query, api).None?
    ensures var one := Iteration(query, api, download, convert);
      RunOver(a + [name] + b, one) == RunOver(a, one).(finished := false)
  {
    var one := Iteration(query, api, download, convert);
    RunOverAppend(a, [name] + b, one);
    assert a + [name] + b == a + ([name] + b);
    assert ([name] + b)[0] == name;
    assert !one(name).finished;
  }

  /** A post whose import raises ends the whole run inside its backend: the
      run does not finish, the backends after it are never contacted, and the
      backend logged its total and at most the outcomes up to that post. */
  lemma PostCrashEndsRun(a: seq<string>, name: string, b: seq<string>, query: string, api: Api,
                         download: string -> bool, convert: Value -> Option<string>, k: nat)
    requires ParseBooru(name).Some? && Retrieve(ParseBooru(name).value, query, api).Some?
    requires var posts := Retrieve(ParseBooru(name).value, query, api).value;
      k < |posts| && ImportPost(ParseBooru(name).value, posts[k], download, convert).Crashed?
    ensures var one := Iteration(query, api, download, convert);
      var r := RunOver(a + [name] + b, one);
      && !r.finished
      && (RunOver(a, one).finished ==> r.events == RunOver(a, one).events + one(name).events)
      && 1 <= |one(name).events| <= k + 2
  {
    var one := Iteration(query, api, download, convert);
    var booru, posts := ParseBooru(name).value, Retrieve(ParseBooru(name).value, query, api).value;
    ImportAllStopsAtCrash(posts, k, Importer(booru, download, convert));
    assert !one(name).finished;
    RunOverAppend(a, [name] + b, one);
    assert a + [name] + b == a + ([name] + b);
    assert ([name] + b)[0] == name;
  }

  /** A backend whose posts all import without raising logs its total, then
      one outcome per post in retrieval order, each depending on that post alone. */
  lemma RunOneIsolates(name: string, query: string, api: Api, download: string -> bool,
                       convert: Value -> Option<string>)
    requires ParseBooru(name).Some? && Retrieve(ParseBooru(name).value, query, api).Some?
    requires var b := ParseBooru(name).value;
      forall p <- Retrieve(b, query, api).value :: !ImportPost(b, p, download, convert).Crashed?
    ensures var b, posts := ParseBooru(name).value, Retrieve(ParseBooru(name).value, query, api).value;
      var run := RunOne(name, query, api, download, convert);
      && run.finished && |run.events| == |posts| + 1
      && forall i :: 0 <= i < |posts| ==> run.events[i + 1] == Imported(b, ImportPost(b, posts[i], download, convert))
  {
    var b, posts := ParseBooru(name).value, Retrieve(ParseBooru(name).value, query, api).value;
    ImportAllIsolates(posts, Importer(b, download, convert));
  }

  /** One iteration of `main`'s loop. */
  method ImportBooru(name: string, query: string, api: Api, download: string -> bool,
                     convert: Value -> Option<string>) returns (run: Run)
    ensures run == Iteration(query, api, download, convert)(name)
  {
    var booru := ParseBooru(name);
    if booru.None? {
      return Run([], false);
    }
    var stream, _ := GetPostsFromBooru(booru.value, query, api);
    if stream.None? {
      return Run([], false);
    }
    var outcomes, ok := ImportPosts(stream.value.posts, Importer(booru.value, download, convert));
    return Run([Found(booru.value, stream.value.total)] + Tagged(booru.value, outcomes), ok);
  }

  /** The sections the toggles read and write exist. */
  predicate TogglesApply(secs: map<string, Config.Section>) {
    && Config.HasOption(secs, "import_from_booru", "deepbooru_enabled")
    && "upload_media" in secs
    && (Config.Truthy(secs["import_from_booru"]["deepbooru_enabled"]) ==> "auto_tagger" in secs)
  }

  /** The tables after the toggles: with Deepbooru enabled for the import,
      uploads are auto-tagged by Deepbooru alone (SauceNAO off); otherwise
      auto-tagging of uploads is switched off; no other option changes. */
  predicate Toggled(before: map<string, Config.Section>, after: map<string, Config.Section>)
    requires TogglesApply(before)
  {
    && after.Keys == before.Keys
    && (forall s :: s in after && s != "upload_media" && s != "auto_tagger" ==> after[s] == before[s])
    && (Config.Truthy(before["import_from_booru"]["deepbooru_enabled"]) ==>
          && after["upload_media"] == before["upload_media"]["auto_tag" := Config.Flag(true)]
          && after["auto_tagger"] == before["auto_tagger"]["saucenao_enabled" := Config.Flag(false)]
               ["deepbooru_enabled" := Config.Flag(true)])
    && (!Config.Truthy(before["import_from_booru"]["deepbooru_enabled"]) ==>
          && after["upload_media"] == before["upload_media"]["auto_tag" := Config.Flag(false)]
          && ("auto_tagger" in after ==> after["auto_tagger"] == before["auto_tagger"]))
  }

  /** The toggles `main` sets before the loop. With Deepbooru enabled for the
      import, uploads are auto-tagged by Deepbooru alone (SauceNAO off);
      otherwise auto-tagging of uploads is switched off. A missing section or
      option raises (`ok` false). */
  method ApplyToggles(cfg: Config.Settings) returns (ok: bool)
    modifies cfg
    ensures ok <==> TogglesApply(old(cfg.sections))
    ensures ok ==> Toggled(old(cfg.sections), cfg.sections)
  {
    if !("import_from_booru" in cfg.sections && "deepbooru_enabled" in cfg.sections["import_from_booru"]) {
      return false;
    }
    if Config.Truthy(cfg.sections["import_from_booru"]["deepbooru_enabled"]) {
      if "upload_media" !in cfg.sections {
        return false;
      }
      cfg.SetOption("upload_media", "auto_tag", Config.Flag(true));
      if "auto_tagger" !in cfg.sections {
        return false;
      }
      cfg.SetOption("auto_tagger", "saucenao_enabled", Config.Flag(false));
      cfg.SetOption("auto_tagger", "deepbooru_enabled", Config.Flag(true));
    } else {
      if "upload_media" !in cfg.sections {
        return false;
      }
      cfg.SetOption("upload_media", "auto_tag", Config.Flag(false));
    }
    return true;
  }

  /** `main(booru, query)`: the toggles, then every selected backend in turn. */
  method RunScript(cfg: Config.Settings, selector: string, query: string, api: Api, download: string -> bool,
              convert: Value -> Option<string>) returns (run: Run)
    modifies cfg
    ensures TogglesApply(old(cfg.sections)) ==> Toggled(old(cfg.sections), cfg.sections)
    ensures run == if TogglesApply(old(cfg.sections)) then RunOver(Boorus(selector), Iteration(query, api, download, convert))
                   else Run([], false)
  {
    var ok := ApplyToggles(cfg);
    if !ok {
      return Run([], false);
    }
    run := RunBoorus(Boorus(selector), query, api, download, convert);
  }

  /** One turn of the loop over backend names, stated for any iteration. */
  lemma RunOverStep(names: seq<string>, i: nat, one: string -> Run, events: seq<Event>, step: Run)
    requires i < |names| && step == one(names[i])
    requires RunOver(names, one) == Run(events + RunOver(names[i..], one).events, RunOver(names[i..], one).finished)
    ensures !step.finished ==> RunOver(names, one) == Run(events + step.events, false)
    ensures step.finished ==> (RunOver(names, one)
      == Run(events + step.events + RunOver(names[i + 1..], one).events, RunOver(names[i + 1..], one).finished))
  {
    assert names[i..][0] == names[i];
    assert names[i..][1..] == names[i + 1..];
  }

  /** The `for booru in boorus` loop of `main`, whose body is `ImportBooru`. */
  method RunBoorus(names: seq<string>, query: string, api: Api, download: string -> bool,
                   convert: Value -> Option<string>) returns (run: Run)
    ensures run == RunOver(names, Iteration(query, api, download, convert))
  {
    ghost var one := Iteration(query, api, download, convert);
    var events: seq<Event> := [];
    var i := 0;
    while i < |names|
      invariant 0 <= i <= |names|
      invariant RunOver(names, one) == Run(events + RunOver(names[i..], one).events, RunOver(names[i..], one).finished)
    {
      var step := ImportBooru(names[i], query, api, download, convert);
      RunOverStep(names, i, one, events, step);
      events := events + step.events;
      if !step.finished {
        return Run(events, false);
      }
      i := i + 1;
    }
    assert names[i..] == [];
    assert events + RunOver(names[i..], one).events == events;
    return Run(events, true);
  }
}
