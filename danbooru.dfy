/** The Danbooru client (`szurubooru_toolkit/danbooru.py`): lookups by MD5,
    by post id, by alternative tag name and by artist name, each retried at
    most eleven times; tag and rating extraction from a post; and the paged
    tag download used when creating tags.

    The network is a parameter: every call is a function from its arguments
    and the attempt number to the reply the service gives on that attempt. */
module DanbooruClient {
  import opened Wrappers
  import opened Strings
  import opened Json
  import opened Retry

  /** What one pybooru call does: return a value, raise `PybooruHTTPError`
      with a message, raise another exception the retry loops catch
      (`TimeoutError`, `PybooruError`, `PybooruAPIError`), or raise anything else. */
  datatype BooruReply<T> = Returned(value: T) | HttpError(msg: string) | ConnectionFailure | OtherError

  /** What one `self.session.get(url).json()` does: decode a JSON list of
      objects, fail to decode (`JSONDecodeError`), raise an exception the
      retry loops catch, or raise anything else. */
  datatype HttpReply = Json(items: seq<Record>) | NotJson | Retryable | Failure

  const NotFound := "Not Found"

  // ---------------------------------------------------------------------------
  // get_by_md5

  /** One attempt of `get_by_md5`: a `PybooruHTTPError` whose message holds
      "Not Found" ends the loop with `None`; any other HTTP error is swallowed
      by the first `except` clause and the loop goes on. */
  function Md5Step<T>(reply: BooruReply<T>): Step<Option<T>> {
    match reply
    case Returned(v) => Settle(Some(v))
    case HttpError(msg) => if Contains(msg, NotFound) then Settle(None) else Again
    case ConnectionFailure => Again
    case OtherError => Raise
  }

  /** A reply after which `get_by_md5` tries again. */
  predicate Md5Retries<T>(reply: BooruReply<T>) {
    reply.ConnectionFailure? || (reply.HttpError? && !Contains(reply.msg, NotFound))
  }

  /** The attempt-by-attempt behaviour of `get_by_md5`. */
  function Md5Steps<T>(md5sum: string, postList: (string, nat) -> BooruReply<T>): nat -> Step<Option<T>> {
    (k: nat) => Md5Step(postList(md5sum, k))
  }

  /** `Danbooru.get_by_md5`: `postList(md5sum, k)` is the reply to the k-th call. */
  method GetByMd5<T(==)>(md5sum: string, postList: (string, nat) -> BooruReply<T>)
    returns (r: Lookup<T>, attempts: nat)
    ensures 1 <= attempts <= MaxAttempts
    ensures forall j :: 1 <= j < attempts ==> Md5Retries(postList(md5sum, j))
    ensures r.Answer? && r.value.Some? ==> postList(md5sum, attempts) == Returned(r.value.value)
    ensures r.Raised? <==> postList(md5sum, attempts).OtherError?
    ensures r == Answer(None) <==>
      (Md5Retries(postList(md5sum, attempts)) && attempts == MaxAttempts)
      || (postList(md5sum, attempts).HttpError? && Contains(postList(md5sum, attempts).msg, NotFound))
  {
    var e := RetryLoop(Md5Steps(md5sum, postList));
    r, attempts := Conclude(e), Attempts(e);
    Md5Earlier(md5sum, postList, e);
    Md5Last(md5sum, postList, e);
  }

  lemma Md5Earlier<T>(md5sum: string, postList: (string, nat) -> BooruReply<T>, e: Ending<Option<T>>)
    requires e == RetryFrom(Md5Steps(md5sum, postList), 1)
    ensures forall j :: 1 <= j < Attempts(e) ==> Md5Retries(postList(md5sum, j))
  {
    forall j | 1 <= j < Attempts(e) ensures Md5Retries(postList(md5sum, j)) {
      assert Md5Steps(md5sum, postList)(j).Again?;
    }
  }

  lemma Md5Last<T>(md5sum: string, postList: (string, nat) -> BooruReply<T>, e: Ending<Option<T>>)
    requires e == RetryFrom(Md5Steps(md5sum, postList), 1)
    ensures var r, n := Conclude(e), Attempts(e);
      && (r.Answer? && r.value.Some? ==> postList(md5sum, n) == Returned(r.value.value))
      && (r.Raised? <==> postList(md5sum, n).OtherError?)
      && (r == Answer(None) <==>
           (Md5Retries(postList(md5sum, n)) && n == MaxAttempts)
           || (postList(md5sum, n).HttpError? && Contains(postList(md5sum, n).msg, NotFound)))
  {
    var step := Md5Steps(md5sum, postList);
    match e {
      case Settled(v, n) =>
        assert step(n) == Settle(v);
        assert Md5Step(postList(md5sum, n)) == Settle(v);
      case Escaped(n) =>
        assert step(n).Raise?;
        assert postList(md5sum, n).OtherError?;
      case Exhausted =>
        assert step(MaxAttempts).Again?;
        assert Md5Retries(postList(md5sum, MaxAttempts));
    }
  }

  // ---------------------------------------------------------------------------
  // get_result

  /** One attempt of `get_result`: every caught exception means try again. */
  function PostStep<T>(reply: BooruReply<T>): Step<Option<T>> {
    match reply
    case Returned(v) => Settle(Some(v))
    case HttpError(_) => Again
    case ConnectionFailure => Again
    case OtherError => Raise
  }

  /** The attempt-by-attempt behaviour of `get_result`. */
  function PostSteps<T>(postId: int, postShow: (int, nat) -> BooruReply<T>): nat -> Step<Option<T>> {
    (k: nat) => PostStep(postShow(postId, k))
  }

  /** `Danbooru.get_result`: `postShow(id, k)` is the reply to the k-th call. */
  method GetResult<T(==)>(postId: int, postShow: (int, nat) -> BooruReply<T>)
    returns (r: Lookup<T>, attempts: nat)
    ensures 1 <= attempts <= MaxAttempts
    ensures forall j :: 1 <= j < attempts ==> postShow(postId, j).HttpError? || postShow(postId, j).ConnectionFailure?
    ensures r.Answer? && r.value.Some? ==> postShow(postId, attempts) == Returned(r.value.value)
    ensures r.Raised? <==> postShow(postId, attempts).OtherError?
    ensures r == Answer(None) <==>
      (attempts == MaxAttempts && (postShow(postId, attempts).HttpError? || postShow(postId, attempts).ConnectionFailure?))
  {
    var e := RetryLoop(PostSteps(postId, postShow));
    r, attempts := Conclude(e), Attempts(e);
    PostEarlier(postId, postShow, e);
    PostLast(postId, postShow, e);
  }

  lemma PostEarlier<T>(postId: int, postShow: (int, nat) -> BooruReply<T>, e: Ending<Option<T>>)
    requires e == RetryFrom(PostSteps(postId, postShow), 1)
    ensures forall j :: 1 <= j < Attempts(e) ==> postShow(postId, j).HttpError? || postShow(postId, j).ConnectionFailure?
  {
    forall j | 1 <= j < Attempts(e) ensures postShow(postId, j).HttpError? || postShow(postId, j).ConnectionFailure? {
      assert PostSteps(postId, postShow)(j).Again?;
    }
  }

  lemma PostLast<T>(postId: int, postShow: (int, nat) -> BooruReply<T>, e: Ending<Option<T>>)
    requires e == RetryFrom(PostSteps(postId, postShow), 1)
    ensures var r, n := Conclude(e), Attempts(e);
      && (r.Answer? && r.value.Some? ==> postShow(postId, n) == Returned(r.value.value))
      && (r.Raised? <==> postShow(postId, n).OtherError?)
      && (r == Answer(None) <==>
           (n == MaxAttempts && (postShow(postId, n).HttpError? || postShow(postId, n).ConnectionFailure?)))
  {
    var step := PostSteps(postId, postShow);
    match e {
      case Settled(v, n) =>
        assert step(n) == Settle(v);
      case Escaped(n) =>
        assert step(n).Raise?;
      case Exhausted =>
        assert step(MaxAttempts).Again?;
    }
  }

  // ---------------------------------------------------------------------------
  // get_other_names_tag

  function OtherNamesUrl(otherTag: string): string {
    "https://danbooru.donmai.us/wiki_pages.json?search[other_names_match]=" + otherTag + "&only=title"
  }

  /** `json()[0]['title']`, where `IndexError` and `KeyError` give `None`. */
  function FirstField(items: seq<Record>, key: string): Option<Value> {
    if items == [] || key !in items[0] then None else Some(items[0][key])
  }

  /** One attempt of `get_other_names_tag`: a missing hit ends the loop with
      `None`; an undecodable body is not caught and escapes. */
  function OtherNamesStep(reply: HttpReply): Step<Option<Value>> {
    match reply
    case Json(items) => Settle(FirstField(items, "title"))
    case NotJson => Raise
    case Retryable => Again
    case Failure => Raise
  }

  /** The attempt-by-attempt behaviour of `get_other_names_tag`. */
  function OtherNamesSteps(url: string, get: (string, nat) -> HttpReply): nat -> Step<Option<Value>> {
    (k: nat) => OtherNamesStep(get(url, k))
  }

  /** `Danbooru.get_other_names_tag`: `get(url, k)` is the reply to the k-th request. */
  method GetOtherNamesTag(otherTag: string, get: (string, nat) -> HttpReply)
    returns (r: Lookup<Value>, attempts: nat)
    ensures 1 <= attempts <= MaxAttempts
    ensures forall j :: 1 <= j < attempts ==> get(OtherNamesUrl(otherTag), j).Retryable?
    ensures get(OtherNamesUrl(otherTag), attempts).Json? ==>
      r == Answer(FirstField(get(OtherNamesUrl(otherTag), attempts).items, "title"))
    ensures r.Raised? <==> get(OtherNamesUrl(otherTag), attempts).NotJson? || get(OtherNamesUrl(otherTag), attempts).Failure?
    ensures get(OtherNamesUrl(otherTag), attempts).Retryable? ==> attempts == MaxAttempts && r == Answer(None)
  {
    var url := OtherNamesUrl(otherTag);
    var e := RetryLoop(OtherNamesSteps(url, get));
    r, attempts := Conclude(e), Attempts(e);
    OtherNamesEarlier(url, get, e);
    OtherNamesLast(url, get, e);
  }

  lemma OtherNamesEarlier(url: string, get: (string, nat) -> HttpReply, e: Ending<Option<Value>>)
    requires e == RetryFrom(OtherNamesSteps(url, get), 1)
    ensures forall j :: 1 <= j < Attempts(e) ==> get(url, j).Retryable?
  {
    forall j | 1 <= j < Attempts(e) ensures get(url, j).Retryable? {
      assert OtherNamesSteps(url, get)(j).Again?;
    }
  }

  lemma OtherNamesLast(url: string, get: (string, nat) -> HttpReply, e: Ending<Option<Value>>)
    requires e == RetryFrom(OtherNamesSteps(url, get), 1)
    ensures var r, n, reply := Conclude(e), Attempts(e), get(url, Attempts(e));
      && (reply.Json? ==> r == Answer(FirstField(reply.items, "title")))
      && (r.Raised? <==> reply.NotJson? || reply.Failure?)
      && (reply.Retryable? ==> n == MaxAttempts && r == Answer(None))
  {
    var step := OtherNamesSteps(url, get);
    match e {
      case Settled(v, n) =>
        assert step(n) == Settle(v);
      case Escaped(n) =>
        assert step(n).Raise?;
      case Exhausted =>
        assert step(MaxAttempts).Again?;
    }
  }

  // ---------------------------------------------------------------------------
  // get_tags, get_rating

  /** `Danbooru.get_tags`: the words of `result['tag_string']`; `None` stands
      for the `KeyError`/`AttributeError` raised when there is no such text. */
  function GetTags(result: Record): (r: Option<seq<string>>)
    ensures r.Some? <==> "tag_string" in result && result["tag_string"].Text?
    ensures r.Some? ==> forall t <- r.value :: t != [] && NoSpace(t)
  {
    if "tag_string" in result && result["tag_string"].Text? then Some(Words(result["tag_string"].text))
    else None
  }

  /** A post whose `tag_string` is a space-joined list of tags yields exactly those tags. */
  lemma GetTagsOfJoined(result: Record, tags: seq<string>)
    requires forall t <- tags :: t != [] && NoSpace(t)
    requires "tag_string" in result && result["tag_string"] == Text(Join(tags, " "))
    ensures GetTags(result) == Some(tags)
  {
    WordsOfJoin(tags);
  }

  /** `Danbooru.get_rating`: `result['rating']` unchanged; `None` stands for the `KeyError`. */
  function GetRating(result: Record): (r: Option<Value>)
    ensures r.Some? <==> "rating" in result
    ensures r.Some? ==> r.value == result["rating"]
  {
    if "rating" in result then Some(result["rating"]) else None
  }

  // ---------------------------------------------------------------------------
  // search_artist

  function ArtistSearchUrl(lowered: string): string {
    "https://danbooru.donmai.us/artists.json?search[any_other_name_like]=" + lowered + "&search[is_deleted]=false"
  }

  /** One attempt of `search_artist` on the lower-cased name: the first
      `artist_list` hit if there is one, else the first hit of the
      alternative-name search. A missing hit or an undecodable body ends the
      loop with `None`. */
  function ArtistStep(listReply: BooruReply<seq<Record>>, get: nat -> HttpReply, k: nat): Step<Option<Value>> {
    match listReply
    case Returned(hits) =>
      if hits != [] then Settle(FirstField(hits, "name"))
      else (
        match get(k)
        case Json(items) => Settle(FirstField(items, "name"))
        case NotJson => Settle(None)
        case Retryable => Again
        case Failure => Raise)
    case HttpError(_) => Again
    case ConnectionFailure => Again
    case OtherError => Raise
  }

  /** A reply pair after which `search_artist` tries again: the
      `artist_list` call failed with a caught exception, or it found nothing
      and the alternative-name request failed with one. */
  predicate ArtistRetries(listReply: BooruReply<seq<Record>>, getReply: HttpReply) {
    listReply.HttpError? || listReply.ConnectionFailure? || (listReply == Returned([]) && getReply.Retryable?)
  }

  /** The attempt-by-attempt behaviour of `search_artist` on the lower-cased name. */
  function ArtistSteps(name: string, artistList: (string, nat) -> BooruReply<seq<Record>>,
                       get: (string, nat) -> HttpReply): nat -> Step<Option<Value>> {
    (k: nat) => ArtistStep(artistList(name, k), (j: nat) => get(ArtistSearchUrl(name), j), k)
  }

  /** `Danbooru.search_artist`: `artistList(name, k)` and `get(url, k)` are the
      replies on the k-th attempt. */
  method SearchArtist(artist: string, artistList: (string, nat) -> BooruReply<seq<Record>>,
                      get: (string, nat) -> HttpReply)
    returns (r: Lookup<Value>, attempts: nat)
    ensures 1 <= attempts <= MaxAttempts
    ensures var e := RetryFrom(ArtistSteps(Lower(artist), artistList, get), 1);
      r == Conclude(e) && attempts == Attempts(e)
    ensures forall j :: 1 <= j < attempts ==>
      ArtistRetries(artistList(Lower(artist), j), get(ArtistSearchUrl(Lower(artist)), j))
    ensures artistList(Lower(artist), attempts).Returned? && artistList(Lower(artist), attempts).value != [] ==>
      r == Answer(FirstField(artistList(Lower(artist), attempts).value, "name"))
    ensures artistList(Lower(artist), attempts) == Returned([]) && get(ArtistSearchUrl(Lower(artist)), attempts).Json? ==>
      r == Answer(FirstField(get(ArtistSearchUrl(Lower(artist)), attempts).items, "name"))
  {
    var name := Lower(artist);
    var e := RetryLoop(ArtistSteps(name, artistList, get));
    r, attempts := Conclude(e), Attempts(e);
    ArtistEarlier(name, artistList, get, e);
    ArtistLast(name, artistList, get, e);
  }

  /** The last attempt of `search_artist` answers with the first hit's name,
      from `artist_list` or else from the alternative-name request. */
  lemma ArtistLast(name: string, artistList: (string, nat) -> BooruReply<seq<Record>>,
                   get: (string, nat) -> HttpReply, e: Ending<Option<Value>>)
    requires e == RetryFrom(ArtistSteps(name, artistList, get), 1)
    ensures var r, n := Conclude(e), Attempts(e);
      && (artistList(name, n).Returned? && artistList(name, n).value != [] ==>
            r == Answer(FirstField(artistList(name, n).value, "name")))
      && (artistList(name, n) == Returned([]) && get(ArtistSearchUrl(name), n).Json? ==>
            r == Answer(FirstField(get(ArtistSearchUrl(name), n).items, "name")))
  {
    var step := ArtistSteps(name, artistList, get);
    var n := Attempts(e);
    var g := (k: nat) => get(ArtistSearchUrl(name), k);
    assert step(n) == ArtistStep(artistList(name, n), g, n);
    match e {
      case Settled(v, _) => assert step(n) == Settle(v);
      case Escaped(_) => assert step(n).Raise?;
      case Exhausted => assert step(n).Again?;
    }
  }

  /** Every attempt of `search_artist` before the last one hit a caught
      connection error, in `artist_list` or in the alternative-name request. */
  lemma ArtistEarlier(name: string, artistList: (string, nat) -> BooruReply<seq<Record>>,
                      get: (string, nat) -> HttpReply, e: Ending<Option<Value>>)
    requires e == RetryFrom(ArtistSteps(name, artistList, get), 1)
    ensures forall j :: 1 <= j < Attempts(e) ==> ArtistRetries(artistList(name, j), get(ArtistSearchUrl(name), j))
  {
    forall j | 1 <= j < Attempts(e) ensures ArtistRetries(artistList(name, j), get(ArtistSearchUrl(name), j)) {
      var g := (k: nat) => get(ArtistSearchUrl(name), k);
      assert ArtistSteps(name, artistList, get)(j) == ArtistStep(artistList(name, j), g, j);
      assert ArtistStep(artistList(name, j), g, j).Again?;
      ArtistAgain(artistList(name, j), g, j);
    }
  }

  /** Only a failed request, or an empty list with a retryable search, is retried. */
  lemma ArtistAgain(listReply: BooruReply<seq<Record>>, get: nat -> HttpReply, k: nat)
    requires ArtistStep(listReply, get, k).Again?
    ensures ArtistRetries(listReply, get(k))
  {
  }

  // ---------------------------------------------------------------------------
  // download_tags

  const TagBaseUrl := "https://danbooru.donmai.us/tags.json"

  /** `limit // 1000` pages when `limit > 1000`, else one. */
  function TagPages(limit: int): (pages: nat)
    ensures pages >= 1
    ensures limit <= 1000 ==> pages == 1
    ensures limit > 1000 ==> pages * 1000 <= limit < (pages + 1) * 1000
  {
    if limit > 1000 then limit / 1000 else 1
  }

  /** The URL of one page of the tag download. */
  function TagUrl(query: string, minPostCount: int, limit: int, page: int): string {
    TagBaseUrl + "?search[post_count]=>" + IntToString(minPostCount) + "&search[name_matches]=" + query
      + "&limit=" + IntToString(limit) + "&page=" + IntToString(page)
  }

  /** The URL of each page of one tag download. */
  function TagUrlOf(query: string, minPostCount: int, limit: int): int -> string {
    page => TagUrl(query, minPostCount, limit, page)
  }

  /** The URLs of pages `1..total`, in page order. */
  function PageUrls(total: nat, urlOf: int -> string): (urls: seq<string>)
    ensures |urls| == total
    ensures forall i :: 0 <= i < total ==> urls[i] == urlOf(i + 1)
  {
    seq(total, i => urlOf(i + 1))
  }

  /** The URLs of every page of the tag download, in page order. */
  function TagUrls(query: string, minPostCount: int, limit: int): seq<string> {
    PageUrls(TagPages(limit), TagUrlOf(query, minPostCount, limit))
  }

  /** The pages a failure-skipping download yields: the successful fetches, in order. */
  function Fetched(urls: seq<string>, fetch: string -> Option<seq<Record>>): (pages: seq<seq<Record>>)
    ensures |pages| <= |urls|
  {
    if urls == [] then []
    else
      match fetch(urls[0])
      case Some(page) => [page] + Fetched(urls[1..], fetch)
      case None => Fetched(urls[1..], fetch)
  }

  /** Every successful fetch is kept, nothing else is, and a download where no
      request fails yields one page per URL. */
  lemma {:induction false} FetchedKeepsSuccesses(urls: seq<string>, fetch: string -> Option<seq<Record>>)
    ensures forall i :: 0 <= i < |urls| && fetch(urls[i]).Some? ==> fetch(urls[i]).value in Fetched(urls, fetch)
    ensures forall p <- Fetched(urls, fetch) :: exists i :: 0 <= i < |urls| && fetch(urls[i]) == Some(p)
    ensures (forall i :: 0 <= i < |urls| ==> fetch(urls[i]).Some?) ==> |Fetched(urls, fetch)| == |urls|
  {
    if urls != [] {
      var rest := Fetched(urls[1..], fetch);
      FetchedKeepsSuccesses(urls[1..], fetch);
      forall p <- rest ensures exists i :: 0 <= i < |urls| && fetch(urls[i]) == Some(p) {
        var i :| 0 <= i < |urls[1..]| && fetch(urls[1..][i]) == Some(p);
        assert fetch(urls[i + 1]) == Some(p);
      }
      forall i | 1 <= i < |urls| && fetch(urls[i]).Some? ensures fetch(urls[i]).value in rest {
        assert urls[i] == urls[1..][i - 1];
      }
      if forall i :: 0 <= i < |urls| ==> fetch(urls[i]).Some? {
        assert forall i :: 0 <= i < |urls[1..]| ==> fetch(urls[1..][i]).Some? by {
          forall i | 0 <= i < |urls[1..]| ensures fetch(urls[1..][i]).Some? {
            assert urls[1..][i] == urls[i + 1];
          }
        }
      }
    }
  }

  /** `Danbooru.download_tags`: requests pages `1..TagPages(limit)` in order with
      the same `limit` each time, and yields every page whose fetch did not
      raise. `fetch(url)` is `None` when the request raised. */
  method DownloadTags(query: string, minPostCount: int, limit: int, fetch: string -> Option<seq<Record>>)
    returns (urls: seq<string>, pages: seq<seq<Record>>)
    ensures |urls| == TagPages(limit)
    ensures forall i :: 0 <= i < |urls| ==> urls[i] == TagUrl(query, minPostCount, limit, i + 1)
    ensures urls == TagUrls(query, minPostCount, limit)
    ensures pages == Fetched(urls, fetch)
  {
    urls, pages := FetchPages(TagPages(limit), TagUrlOf(query, minPostCount, limit), fetch);
  }

  /** The `for page in range(1, pages + 1)` loop of `download_tags`, with
      `urlOf(page)` the URL it builds for a page. */
  method FetchPages(total: nat, urlOf: int -> string, fetch: string -> Option<seq<Record>>)
    returns (urls: seq<string>, pages: seq<seq<Record>>)
    ensures urls == PageUrls(total, urlOf)
    ensures pages == Fetched(urls, fetch)
  {
    urls, pages := [], [];
    var page := 1;
    while page <= total
      invariant 1 <= page <= total + 1
      invariant |urls| == page - 1
      invariant forall i :: 0 <= i < |urls| ==> urls[i] == urlOf(i + 1)
      invariant pages == Fetched(urls, fetch)
    {
      var url := urlOf(page);
      FetchedAppend(urls, url, fetch);
      urls := urls + [url];
      match fetch(url) {
        case Some(p) => pages := pages + [p];
        case None =>
      }
      page := page + 1;
    }
  }

  lemma {:induction false} FetchedAppend(urls: seq<string>, url: string, fetch: string -> Option<seq<Record>>)
    ensures Fetched(urls + [url], fetch) ==
      Fetched(urls, fetch) + (if fetch(url).Some? then [fetch(url).value] else [])
  {
    if urls == [] {
      assert ([] + [url])[1..] == [];
    } else {
      assert (urls + [url])[1..] == urls[1..] + [url];
      FetchedAppend(urls[1..], url, fetch);
    }
  }
}
