/** The Pixiv client (`szurubooru_toolkit/pixiv.py`): the illustration lookup
    by URL with its Fanbox guard and bounded retry, tag and rating extraction
    from an illustration, and the choice of the artist name.

    pixivpy's `illust_detail`, Danbooru's `search_artist` and Szurubooru's
    `create_tag` are parameters. */
module PixivClient {
  import opened Wrappers
  import opened Strings
  import opened Retry

  /** One entry of `result.illust.tags`; its `name` may be null. */
  datatype Tag = Tag(name: Option<string>)

  /** `result.illust`, with its tag list. */
  datatype Illust = Illust(tags: seq<Tag>)

  /** An `illust_detail` result; `illust` is `None` when it is falsy. */
  datatype Detail = Detail(illust: Option<Illust>)

  /** What one `illust_detail` call does: return a result, raise
      `ClientConnectorError`, raise `KeyError` (a deleted post that is still
      indexed), or raise anything else. */
  datatype PixivReply<T> = Returned(value: T) | ConnectionError | KeyMissing | OtherError

  const Fanbox := "pixiv.net/fanbox"

  // ---------------------------------------------------------------------------
  // get_result

  /** One attempt of `get_result`: a connection error means try again, a
      `KeyError` ends the loop with `None`. */
  function DetailStep<T>(reply: PixivReply<T>): Step<Option<T>> {
    match reply
    case Returned(v) => Settle(Some(v))
    case ConnectionError => Again
    case KeyMissing => Settle(None)
    case OtherError => Raise
  }

  /** The attempt-by-attempt behaviour of `get_result` for one post id. */
  function DetailSteps<T>(postId: int, illustDetail: (int, nat) -> PixivReply<T>): nat -> Step<Option<T>> {
    (k: nat) => DetailStep(illustDetail(postId, k))
  }

  /** The post id of a result URL: the text after its last `=` read as an
      integer; `None` stands for the `ValueError` of `int()`. */
  function PostId(url: string): (r: Option<int>)
    ensures '=' !in url ==> r == ParseInt(url)
  {
    var f := LastField(url, '=');
    assert '=' !in url ==> f == url by {
      if |f| < |url| {
        assert url[|url| - |f| - 1] in url;
      }
    }
    ParseInt(f)
  }

  /** `Pixiv.get_result`: `illustDetail(id, k)` is the reply to the k-th call;
      `calls` is the number of calls made. */
  method GetResult<T(==)>(url: string, illustDetail: (int, nat) -> PixivReply<T>)
    returns (r: Lookup<T>, calls: nat)
    ensures Contains(url, Fanbox) ==> r == Answer(None) && calls == 0
    ensures !Contains(url, Fanbox) && PostId(url).None? ==> r == Raised && calls == 0
    ensures !Contains(url, Fanbox) && PostId(url).Some? ==>
      var reply := illustDetail(PostId(url).value, calls);
      && 1 <= calls <= MaxAttempts
      && (forall j :: 1 <= j < calls ==> illustDetail(PostId(url).value, j).ConnectionError?)
      && (reply.Returned? ==> r == Answer(Some(reply.value)))
      && (reply.KeyMissing? ==> r == Answer(None))
      && (reply.OtherError? <==> r == Raised)
      && (reply.ConnectionError? ==> calls == MaxAttempts && r == Answer(None))
  {
    if Contains(url, Fanbox) {
      return Answer(None), 0;
    }
    var postId := PostId(url);
    if postId.None? {
      return Raised, 0;
    }
    var e := RetryLoop(DetailSteps(postId.value, illustDetail));
    r, calls := Conclude(e), Attempts(e);
    DetailEarlier(postId.value, illustDetail, e);
    DetailLast(postId.value, illustDetail, e);
  }

  lemma DetailEarlier<T>(postId: int, illustDetail: (int, nat) -> PixivReply<T>, e: Ending<Option<T>>)
    requires e == RetryFrom(DetailSteps(postId, illustDetail), 1)
    ensures forall j :: 1 <= j < Attempts(e) ==> illustDetail(postId, j).ConnectionError?
  {
    forall j | 1 <= j < Attempts(e) ensures illustDetail(postId, j).ConnectionError? {
      assert DetailSteps(postId, illustDetail)(j).Again?;
    }
  }

  lemma DetailLast<T>(postId: int, illustDetail: (int, nat) -> PixivReply<T>, e: Ending<Option<T>>)
    requires e == RetryFrom(DetailSteps(postId, illustDetail), 1)
    ensures var r, reply := Conclude(e), illustDetail(postId, Attempts(e));
      && (reply.Returned? ==> r == Answer(Some(reply.value)))
      && (reply.KeyMissing? ==> r == Answer(None))
      && (reply.OtherError? <==> r == Raised)
      && (reply.ConnectionError? ==> Attempts(e) == MaxAttempts && r == Answer(None))
  {
    var step := DetailSteps(postId, illustDetail);
    match e {
      case Settled(v, n) =>
        assert step(n) == Settle(v);
      case Escaped(n) =>
        assert step(n).Raise?;
      case Exhausted =>
        assert step(MaxAttempts).Again?;
    }
  }

  /** A URL naming a post by `illust_id=<n>` is looked up under `n`. */
  lemma PostIdOfQuery(prefix: string, n: int)
    ensures PostId(prefix + "=" + IntToString(n)) == Some(n)
  {
    var s := prefix + "=" + IntToString(n);
    var f := LastField(s, '=');
    var t := IntToString(n);
    assert '=' !in t by {
      forall k | 0 <= k < |t| ensures t[k] != '=' {
        assert IsDigit(t[k]) || t[k] == '-';
      }
    }
    assert s[|s| - |t|..] == t;
    assert s[|s| - |t| - 1] == '=';
    assert f == t;
    ParseIntOfIntToString(n);
  }

  // ---------------------------------------------------------------------------
  // get_tags, get_rating

  /** The tag list `get_tags` and `get_rating` walk: none when `illust` is falsy. */
  function TagsOf(result: Detail): seq<Tag> {
    if result.illust.Some? then result.illust.value.tags else []
  }

  /** A tag name that `get_tags` keeps. */
  predicate Kept(t: Tag) {
    t.name.Some? && t.name.value != "R-18"
  }

  /** The names `get_tags` collects from `tags`, in order. */
  function KeptNames(tags: seq<Tag>): (names: seq<string>)
    ensures |names| <= |tags|
  {
    if tags == [] then []
    else (if Kept(tags[0]) then [tags[0].name.value] else []) + KeptNames(tags[1..])
  }

  lemma {:induction false} KeptNamesAppend(a: seq<Tag>, b: seq<Tag>)
    ensures KeptNames(a + b) == KeptNames(a) + KeptNames(b)
  {
    if a == [] {
      assert a + b == b;
    } else {
      var head := if Kept(a[0]) then [a[0].name.value] else [];
      assert (a + b)[0] == a[0];
      assert (a + b)[1..] == a[1..] + b;
      assert KeptNames(a + b) == head + KeptNames(a[1..] + b);
      KeptNamesAppend(a[1..], b);
    }
  }

  /** Every collected name is a non-null, non-`R-18` name of some tag, and every
      such name is collected. */
  lemma {:induction false} KeptNamesMembers(tags: seq<Tag>)
    ensures forall n <- KeptNames(tags) :: n != "R-18" && Tag(Some(n)) in tags
    ensures forall t <- tags :: Kept(t) ==> t.name.value in KeptNames(tags)
  {
    if tags != [] {
      KeptNamesMembers(tags[1..]);
      assert forall t <- tags[1..] :: t in tags;
      assert tags[0] == Tag(tags[0].name);
    }
  }

  /** `Pixiv.get_tags`. */
  method GetTags(result: Detail) returns (tags: seq<string>)
    ensures tags == KeptNames(TagsOf(result))
  {
    tags := [];
    var all := TagsOf(result);
    for i := 0 to |all|
      invariant tags == KeptNames(all[..i])
    {
      KeptNamesAppend(all[..i], [all[i]]);
      assert all[..i + 1] == all[..i] + [all[i]];
      var temp := all[i].name;
      if temp.Some? {
        if temp.value != "R-18" {
          tags := tags + [temp.value];
        }
      }
    }
    assert all[..|all|] == all;
  }

  /** `Pixiv.get_rating`: "unsafe" exactly when some tag is named `R-18`. */
  method GetRating(result: Detail) returns (rating: string)
    ensures rating == "unsafe" <==> exists t <- TagsOf(result) :: t.name == Some("R-18")
    ensures rating == "unsafe" || rating == "safe"
  {
    var all := TagsOf(result);
    for i := 0 to |all|
      invariant forall j :: 0 <= j < i ==> all[j].name != Some("R-18")
    {
      if all[i].name == Some("R-18") {
        return "unsafe";
      }
    }
    return "safe";
  }

  /** `get_tags` drops the `R-18` marker that `get_rating` looks for, so a
      result rated "safe" loses no tag name to that filter. */
  lemma SafeKeepsAllNamed(tags: seq<Tag>)
    requires forall t <- tags :: t.name != Some("R-18")
    ensures forall t <- tags :: t.name.Some? ==> t.name.value in KeptNames(tags)
  {
    KeptNamesMembers(tags);
  }

  // ---------------------------------------------------------------------------
  // extract_pixiv_artist

  /** No ASCII capital letter occurs in `s`. */
  predicate NoUpperIn(s: string) {
    forall i :: 0 <= i < |s| ==> LowerChar(s[i]) == s[i]
  }

  /** The sanitised Pixiv artist name: lower-cased, spaces turned into `_`, and
      every ideographic space (U+3000) removed. */
  function Sanitize(name: string): (r: string)
    ensures ' ' !in r && '\U{3000}' !in r && NoUpperIn(r)
    ensures |r| <= |name|
    ensures '\U{3000}' !in name ==>
      |r| == |name| && forall i :: 0 <= i < |name| ==> r[i] == if name[i] == ' ' then '_' else LowerChar(name[i])
  {
    var underscored := Underscored(name);
    RemoveCharShrinks(underscored, '\U{3000}');
    RemoveCharKeepsLower(underscored, '\U{3000}');
    var r := RemoveChar(underscored, '\U{3000}');
    assert multiset(r)[' '] == multiset(underscored)[' '] == 0;
    r
  }

  /** The first two steps of the sanitisation: lower-cased, then spaces
      turned into `_`. */
  function Underscored(name: string): (u: string)
    ensures ' ' !in u && NoUpperIn(u)
    ensures |u| == |name|
    ensures forall i :: 0 <= i < |name| ==> u[i] == if name[i] == ' ' then '_' else LowerChar(name[i])
    ensures '\U{3000}' !in name ==> '\U{3000}' !in u
  {
    var u := ReplaceChar(Lower(name), ' ', '_');
    assert '\U{3000}' !in name ==> '\U{3000}' !in u by {
      if '\U{3000}' !in name {
        forall i | 0 <= i < |u| ensures u[i] != '\U{3000}' {
          assert name[i] != '\U{3000}';
        }
      }
    }
    u
  }

  lemma {:induction false} RemoveCharShrinks(u: string, c: char)
    ensures |RemoveChar(u, c)| <= |u|
  {
    if u != [] {
      RemoveCharShrinks(u[1..], c);
    }
  }

  lemma {:induction false} RemoveCharKeepsLower(u: string, c: char)
    requires NoUpperIn(u)
    ensures NoUpperIn(RemoveChar(u, c))
  {
    if u != [] {
      RemoveCharKeepsLower(u[1..], c);
      var rest := RemoveChar(u[1..], c);
      if u[0] != c {
        assert RemoveChar(u, c) == [u[0]] + rest;
      }
    }
  }

  /** Sanitising an already sanitised name changes nothing. */
  lemma SanitizeIdempotent(name: string)
    ensures Sanitize(Sanitize(name)) == Sanitize(name)
  {
  }

  /** What the sanitisation makes of one character: U+3000 disappears, a
      space becomes `_`, and anything else is lower-cased. */
  function SanitizedChar(c: char): string {
    if c == '\U{3000}' then [] else if c == ' ' then ['_'] else [LowerChar(c)]
  }

  /** The sanitisation character by character, as a reference definition. */
  function SanitizedChars(name: string): string {
    if name == [] then [] else SanitizedChar(name[0]) + SanitizedChars(name[1..])
  }

  /** Sanitising a concatenation sanitises each part. */
  lemma SanitizeAppend(a: string, b: string)
    ensures Sanitize(a + b) == Sanitize(a) + Sanitize(b)
  {
    UnderscoredAppend(a, b);
    RemoveCharAppend(Underscored(a), Underscored(b), '\U{3000}');
  }

  lemma UnderscoredAppend(a: string, b: string)
    ensures Underscored(a + b) == Underscored(a) + Underscored(b)
  {
    var u, v := Underscored(a + b), Underscored(a) + Underscored(b);
    forall i | 0 <= i < |u| ensures u[i] == v[i] {
      if i < |a| {
        assert (a + b)[i] == a[i];
      } else {
        assert (a + b)[i] == b[i - |a|];
      }
    }
  }

  /** The sanitised name is the concatenation of what each of its characters
      becomes: in particular every U+3000 is dropped and the rest is kept in
      order. */
  lemma {:induction false} SanitizeCharwise(name: string)
    ensures Sanitize(name) == SanitizedChars(name)
  {
    if name != [] {
      assert name == [name[0]] + name[1..];
      SanitizeAppend([name[0]], name[1..]);
      SanitizeCharwise(name[1..]);
      var u := Underscored([name[0]]);
      assert u == [if name[0] == ' ' then '_' else LowerChar(name[0])];
      assert RemoveChar(u, '\U{3000}') == (if u[0] == '\U{3000}' then [] else [u[0]]) + RemoveChar(u[1..], '\U{3000}');
    } else {
      assert Underscored(name) == [];
    }
  }

  /** A Python string is truthy when it is present and not empty. */
  predicate Truthy(s: Option<string>) {
    s.Some? && s.value != ""
  }

  /** What `extract_pixiv_artist` settles on: the artist name it returns, the
      names it looked up on Danbooru in order, and the name of the artist tag
      it asked Szurubooru to create, if any. */
  datatype ArtistChoice = ArtistChoice(artist: Option<string>, searched: seq<string>, created: Option<string>)

  /** `Pixiv.extract_pixiv_artist`: `search(name)` is Danbooru's `search_artist`
      reply for `name`; `usePixivArtist` is `auto_tagger['use_pixiv_artist']`.
      A failing `create_tag` is caught and logged, so its outcome does not
      matter. */
  function ExtractPixivArtist(pixivArtist: Option<string>, search: string -> Option<string>,
                              usePixivArtist: bool): (c: ArtistChoice)
    ensures !Truthy(pixivArtist) ==> c == ArtistChoice(None, [], None)
    ensures Truthy(pixivArtist) ==>
      var raw, clean := pixivArtist.value, Sanitize(pixivArtist.value);
      && c.artist.Some?
      && 1 <= |c.searched| <= 2 && c.searched[0] == raw
      && (|c.searched| == 2 <==> !Truthy(search(raw)))
      && (|c.searched| == 2 ==> c.searched[1] == clean)
      && (Truthy(search(raw)) ==> c.artist == search(raw))
      && (!Truthy(search(raw)) && Truthy(search(clean)) ==> c.artist == search(clean))
      && (!Truthy(search(raw)) && !Truthy(search(clean)) ==> c.artist == Some(clean))
      && (c.created.Some? <==> !Truthy(search(raw)) && !Truthy(search(clean)) && usePixivArtist)
      && (c.created.Some? ==> c.created == c.artist)
  {
    if Truthy(pixivArtist) then
      var raw := pixivArtist.value;
      var clean := Sanitize(raw);
      var first := search(raw);
      var searched := if Truthy(first) then [raw] else [raw, clean];
      var found := if Truthy(first) then first else search(clean);
      var artist := if Truthy(found) then found.value else clean;
      ArtistChoice(Some(artist), searched, if !Truthy(found) && usePixivArtist then Some(artist) else None)
    else
      ArtistChoice(None, [], None)
  }
}
