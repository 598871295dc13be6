# szuru-toolkit in Dafny

This project models the core of szuru-toolkit, a command-line toolkit that fills a
szurubooru image board from other boorus. Its parts:

- **Danbooru client** (`DanbooruClient`). The MD5, post, other-name and artist
  lookups retry up to eleven times. The tag pages are downloaded for
  `create-tags`.
- **Pixiv client** (`PixivClient`). The post lookup with the same retry
  scheme, the tag and rating extraction, and the artist-name sanitisation and
  choice.
- **Configuration** (`Config`). A `Settings` object holds the tables of
  `config.toml`. The model covers the required-option check and the
  szurubooru URL clean-up. It also covers the conversion of the convert
  threshold from KB/MB and the Deepbooru switch.
- **import-from-booru** (`ImportFromBooru`). Post retrieval per backend
  (Danbooru is paged by 100 and only when there are more than 100 posts). Then
  one upload per post with its tags, safety and source, and the loop over one
  backend or all four.
- **create-tags** (`CreateTags`). The Danbooru category mapping, the tag-file
  line format, and the two creation loops. An existing tag never stops a loop.
- **The CLI front end** (`Cli`). Which parameters given on the command line
  are recorded into which section of the Click context object. It also covers
  comma lists, the argument guards of `import-from-url` and `tag-posts`, and
  which modules validate their paths.
- **gallery-dl upscale hook** (`Upscale`). The upscale decision, and the
  PNG-to-JPG conversion with its file and metadata renaming.

Shared pieces live in `Retry` (the eleven-attempt retry loop and how it ends),
`Strings` (Python's `split`, `strip`, `replace`, `lower`, `int()` and `str()` on
strings), `Json` (record values) and `Wrappers` (`Option`).

Outside services are parameters: pybooru, the HTTP session, pixivpy,
szurubooru's `create_tag`, `urlretrieve`, `convert_rating`, `validators.url`,
`urlsplit`, `float()`, PIL and the file system. A service that may be asked
again on a retry is a function of the attempt number. An exception that
reaches `@logger.catch`, or leaves the script, becomes an explicit outcome
(`Raised`, `Crashed`, `finished == false`, `None`).

Some behaviour is modelled as the code has it, not as one might expect:

- In the `cli` group, the logging list names `log`, so `--log-enabled` is
  never recorded.
- `create-relations` replaces its section on each recorded parameter, so only
  the last one survives.
- `tag-posts` records its parameters only after `setup_module` has applied
  the context object, so its override does not see them.
- Danbooru retrieval with at most 100 posts yields no posts.

## Model

| member | source | states |
|---|---|---|
| Retry.RetryFrom | src/szurubooru_toolkit/danbooru.py:49-65 | a retry loop ends with the first attempt that settles or raises, all earlier attempts asked for a retry, and it is exhausted exactly when all eleven attempts asked for a retry |
| Retry.RetryLoop | src/szurubooru_toolkit/danbooru.py:49-65 | the `for _ in range(1, 12)` loop with its `else` branch computes that ending, after 1 to 11 attempts |
| DanbooruClient.GetByMd5 | src/szurubooru_toolkit/danbooru.py:49-67 | 1-11 attempts; every earlier attempt failed in a retryable way; a found post is the reply of the last attempt; `None` exactly on a "Not Found" HTTP error or after eleven failures; any other error escapes |
| DanbooruClient.Md5Earlier | src/szurubooru_toolkit/danbooru.py:49-62 | the attempts before the last all failed in a way that retries |
| DanbooruClient.Md5Last | src/szurubooru_toolkit/danbooru.py:52-65 | how the last attempt's reply decides the result |
| DanbooruClient.GetResult | src/szurubooru_toolkit/danbooru.py:90-103 | 1-11 attempts of `post_show`; the result is the first reply, `None` after eleven failures, and an unexpected error escapes |
| DanbooruClient.PostEarlier | src/szurubooru_toolkit/danbooru.py:90-98 | the attempts before the last all failed with a pybooru or timeout error |
| DanbooruClient.PostLast | src/szurubooru_toolkit/danbooru.py:92-103 | how the last attempt's reply decides the result |
| DanbooruClient.GetOtherNamesTag | src/szurubooru_toolkit/danbooru.py:126-148 | the wiki title of the first JSON item, `None` for an empty list or missing key, `None` after eleven connection failures; a non-JSON reply escapes |
| DanbooruClient.OtherNamesEarlier | src/szurubooru_toolkit/danbooru.py:126-143 | the attempts before the last all hit a connection failure |
| DanbooruClient.OtherNamesLast | src/szurubooru_toolkit/danbooru.py:128-148 | how the last reply decides the result |
| DanbooruClient.GetTagsOfJoined | src/szurubooru_toolkit/danbooru.py:163 | a `tag_string` made by joining tags with spaces splits back into exactly those tags |
| DanbooruClient.GetTags | src/szurubooru_toolkit/danbooru.py:150-166 | present exactly when `tag_string` is a text field; the tags are non-empty and contain no whitespace |
| DanbooruClient.GetRating | src/szurubooru_toolkit/danbooru.py:181-184 | the rating is the record's `rating` field, and is missing exactly when the field is |
| DanbooruClient.SearchArtist | src/szurubooru_toolkit/danbooru.py:206-238 | searches the lower-cased name; the result and attempt count are those of the retry ending; every earlier attempt hit a caught failure; the first `artist_list` hit's name wins, else the first `any_other_name_like` hit |
| DanbooruClient.ArtistEarlier | src/szurubooru_toolkit/danbooru.py:206-233 | the attempts before the last all failed with an HTTP or connection error, or found no artist while the other-name request failed retryably |
| DanbooruClient.ArtistLast | src/szurubooru_toolkit/danbooru.py:208-230 | on the last attempt, an `artist_list` hit gives its first name, and an empty list with a JSON other-name reply gives that reply's first name |
| DanbooruClient.TagPages | src/szurubooru_toolkit/danbooru.py:266-269 | one page when the limit is at most 1000; above that, the number of whole thousands in the limit |
| DanbooruClient.FetchedKeepsSuccesses | src/szurubooru_toolkit/danbooru.py:284-288 | a failed page is skipped; every fetched page is kept, and nothing else is |
| DanbooruClient.DownloadTags | src/szurubooru_toolkit/danbooru.py:264-290 | one URL per page, numbered from 1, with the post count, query and limit; the pages are the successful fetches in order |
| DanbooruClient.FetchPages | src/szurubooru_toolkit/danbooru.py:271-288 | one URL per page number from 1 to the page count, requested in order; the pages kept are exactly the fetches that did not raise, in order |
| PixivClient.GetResult | src/szurubooru_toolkit/pixiv.py:45-67 | no request for a Fanbox URL; a post id that is not an integer raises; a deleted post gives `None`; eleven connection errors give `None` |
| PixivClient.PostId | src/szurubooru_toolkit/pixiv.py:46 | a URL without `=` is read as an integer as a whole; otherwise the text after its last `=` is |
| PixivClient.DetailEarlier | src/szurubooru_toolkit/pixiv.py:49-56 | the attempts before the last all hit a connection error |
| PixivClient.DetailLast | src/szurubooru_toolkit/pixiv.py:50-62 | how the last reply decides the result |
| PixivClient.PostIdOfQuery | src/szurubooru_toolkit/pixiv.py:46 | the id after the last `=` of a URL is read back as the number written there |
| PixivClient.KeptNamesMembers | src/szurubooru_toolkit/pixiv.py:85-92 | kept names are exactly the named tags other than R-18 |
| PixivClient.GetTags | src/szurubooru_toolkit/pixiv.py:69-94 | the names of the illustration's tags, in order, without unnamed tags and R-18 |
| PixivClient.GetRating | src/szurubooru_toolkit/pixiv.py:96-115 | `unsafe` exactly when some tag is named R-18, else `safe` |
| PixivClient.SafeKeepsAllNamed | src/szurubooru_toolkit/pixiv.py:85-94 | with no R-18 tag every tag name is kept |
| PixivClient.Sanitize | src/szurubooru_toolkit/pixiv.py:144-146 | the sanitised name has no spaces, no U+3000 and no upper-case letters and is no longer than the input; without U+3000 it is the input lower-cased with `_` for spaces |
| PixivClient.Underscored | src/szurubooru_toolkit/pixiv.py:144-145 | lower-casing and then replacing spaces leaves no space and no capital, and keeps every other character in place |
| PixivClient.SanitizeIdempotent | src/szurubooru_toolkit/pixiv.py:144-146 | sanitising a sanitised name changes nothing |
| PixivClient.SanitizeAppend | src/szurubooru_toolkit/pixiv.py:144-146 | sanitising a concatenation sanitises each part separately |
| PixivClient.SanitizeCharwise | src/szurubooru_toolkit/pixiv.py:144-146 | the sanitised name is, character by character, nothing for U+3000, `_` for a space and the lower-cased character otherwise |
| PixivClient.ExtractPixivArtist | src/szurubooru_toolkit/pixiv.py:141-164 | `None` for an empty name; the raw name is searched first, then the sanitised one only on a miss; a hit wins, else the sanitised name; an artist tag is created only when both miss and `use_pixiv_artist` is set |
| Config.CompleteUpdate | src/szurubooru_toolkit/config.py:121-161 | overwriting a present option keeps the configuration complete |
| Config.AssignKeeps | src/szurubooru_toolkit/config.py:121 | overwriting one option keeps the configuration complete, keeps the same tables and leaves the other tables alone |
| Config.LoadedIff | src/szurubooru_toolkit/config.py:29-42 | loading succeeds exactly when every required option is present, the paths exist, the URL is a valid http/https URL, the threshold converts when `convert_to_jpg` is set, and the model exists when Deepbooru is enabled |
| Config.LoadedValues | src/szurubooru_toolkit/config.py:29-42 | a successful load changes exactly three things: the cleaned URL, the converted threshold when `convert_to_jpg` is set, and `deepbooru_forced` switched off when Deepbooru is disabled |
| Config.Settings.CheckAttrSet | src/szurubooru_toolkit/config.py:44-92 | passes exactly when every required section and option is present; otherwise reports the first missing section, or with all sections present the first missing option |
| Config.Settings.ValidateUrl | src/szurubooru_toolkit/config.py:115-136 | stores the stripped URL; fails unless it is a valid http/https URL; strips trailing `/` when the path starts with `/` |
| Config.Settings.SetOption | src/szurubooru_toolkit/config.py:121 | sets one option and changes nothing else |
| Config.Settings.ValidateConvertThreshold | src/szurubooru_toolkit/config.py:147-161 | needs KB or MB in the text; KB wins and multiplies by 1000, else MB by 1000000; a float parse failure fails |
| Config.Settings.Load | src/szurubooru_toolkit/config.py:29-42 | succeeds exactly when the loading specification does, and leaves exactly the tables it computes: Deepbooru's model exists when enabled, with Deepbooru off `deepbooru_forced` becomes false |
| Config.Settings.ValidateChecked | src/szurubooru_toolkit/config.py:35-37 | succeeds exactly when the URL check and, when `convert_to_jpg` is set, the threshold conversion do, leaving the tables they compute; `auto_tagger` is left alone |
| Config.Settings.CheckedUrl | src/szurubooru_toolkit/config.py:35 | succeeds exactly when the URL is accepted, storing the cleaned URL; the configuration stays complete and `auto_tagger` is left alone |
| Config.Settings.CheckedThreshold | src/szurubooru_toolkit/config.py:36-37 | succeeds exactly when the threshold converts, storing the number of bytes; the configuration stays complete and `auto_tagger` is left alone |
| Config.Settings.ApplyDeepbooru | src/szurubooru_toolkit/config.py:39-42 | Deepbooru enabled: passes exactly when the model exists and changes nothing; disabled: only `deepbooru_forced` becomes false |
| ImportFromBooru.ParseBooru | src/szurubooru_toolkit/scripts/import_from_booru.py:144-151 | a recognised backend name maps to its client |
| ImportFromBooru.ParseName | src/szurubooru_toolkit/scripts/import_from_booru.py:144-151 | every backend's name maps back to it |
| ImportFromBooru.Boorus | src/szurubooru_toolkit/scripts/import_from_booru.py:136-139 | a selector other than `all` runs just that backend |
| ImportFromBooru.BoorusAll | src/szurubooru_toolkit/scripts/import_from_booru.py:136-139 | `all` runs the four backends once each, in order |
| ImportFromBooru.Pages | src/szurubooru_toolkit/scripts/import_from_booru.py:66 | `ceil(total / 100)` |
| ImportFromBooru.Retrieve | src/szurubooru_toolkit/scripts/import_from_booru.py:57-78 | Gelbooru searches the query's words; Yandere and Konachan list 100 posts with the exclusions; Danbooru yields nothing at one page or less, and otherwise the pages' posts flattened in order, failing when the count or a page request fails |
| ImportFromBooru.PagesOfNat | src/szurubooru_toolkit/scripts/import_from_booru.py:66-69 | for a count, pages is `(total + 99) / 100`, and more than one exactly when total exceeds 100 |
| ImportFromBooru.ListPagesInOrder | src/szurubooru_toolkit/scripts/import_from_booru.py:70-71 | page i of the result is the reply to page i + 1 |
| ImportFromBooru.Requests | src/szurubooru_toolkit/scripts/import_from_booru.py:62-75 | Gelbooru searches the query's words; Yandere and Konachan list 100 with the exclusions; Danbooru counts, then lists pages 1..n only when n > 1 |
| ImportFromBooru.ListDanbooruPages | src/szurubooru_toolkit/scripts/import_from_booru.py:68-71 | the Danbooru page loop requests pages 1..n in order, stops at the first request that raises, and otherwise returns every page in order |
| ImportFromBooru.SmallDanbooruYieldsNothing | src/szurubooru_toolkit/scripts/import_from_booru.py:65-73 | at most 100 Danbooru posts give an empty result after one count request |
| ImportFromBooru.GetPostsFromBooru | src/szurubooru_toolkit/scripts/import_from_booru.py:57-78 | the first value yielded is the number of posts that follow; the posts and requests agree with the retrieval specification |
| ImportFromBooru.ImportPost | src/szurubooru_toolkit/scripts/import_from_booru.py:81-118 | a post is skipped exactly for a missing `file_url` (outside Gelbooru) or a failed download; it raises exactly when reading `file_url` fails, the URL is not text, or after the download `convert_rating` raises or the tag key, `id` or `rating` is missing or the tag value is not text |
| ImportFromBooru.ImportPostUploads | src/szurubooru_toolkit/scripts/import_from_booru.py:90-118 | an uploaded file is the last path segment of the downloaded URL, and its source starts with the backend's post URL |
| ImportFromBooru.ImportRecord | src/szurubooru_toolkit/scripts/import_from_booru.py:103-118 | a pybooru record uploads its split tags, converted rating and id-based source |
| ImportFromBooru.ImportGelbooruImage | src/szurubooru_toolkit/scripts/import_from_booru.py:99-102 | a Gelbooru image uploads its tags, converted rating and Gelbooru source |
| ImportFromBooru.ImportAll | src/szurubooru_toolkit/scripts/import_from_booru.py:158-166 | each outcome is the import of the post at the same position; no outcome before the last crashed; the loop stops early only at a crash |
| ImportFromBooru.ImportAllIsolates | src/szurubooru_toolkit/scripts/import_from_booru.py:158-166 | without a crash every post is imported, in order |
| ImportFromBooru.ImportAllStopsAtCrash | src/szurubooru_toolkit/scripts/import_from_booru.py:158-166 | a crash ends the loop at that post |
| ImportFromBooru.ImportAllNoCrash | src/szurubooru_toolkit/scripts/import_from_booru.py:158-166 | the post loop goes through without a raise exactly when no post raises |
| ImportFromBooru.ImportPosts | src/szurubooru_toolkit/scripts/import_from_booru.py:158-166 | the post loop's outcomes, and it finishes exactly when none crashed |
| ImportFromBooru.Tagged | src/szurubooru_toolkit/scripts/import_from_booru.py:166 | each outcome is tagged with its backend |
| ImportFromBooru.RunOver | src/szurubooru_toolkit/scripts/import_from_booru.py:141-166 | the run over the backends finishes exactly when every backend's run does |
| ImportFromBooru.RunOne | src/szurubooru_toolkit/scripts/import_from_booru.py:141-166 | a backend's events start with the post count it found; it finishes exactly when the name is known, retrieval succeeds and no post raises |
| ImportFromBooru.RunOverAppend | src/szurubooru_toolkit/scripts/import_from_booru.py:141 | running two lists of backends is running the first, then the second only if the first finished |
| ImportFromBooru.RetrievalFailureEndsRun | src/szurubooru_toolkit/scripts/import_from_booru.py:153-155 | a retrieval failure ends the whole run at that backend |
| ImportFromBooru.PostCrashEndsRun | src/szurubooru_toolkit/scripts/import_from_booru.py:99-166 | a post whose import raises ends the whole run inside its backend: the run does not finish, later backends are not contacted, and that backend logged its total and at most the outcomes up to that post |
| ImportFromBooru.RunOneIsolates | src/szurubooru_toolkit/scripts/import_from_booru.py:153-166 | without a crash a backend reports its count and then one event per post |
| ImportFromBooru.ImportBooru | src/szurubooru_toolkit/scripts/import_from_booru.py:142-166 | one iteration of the backend loop, the body `RunBoorus` runs: it computes the run of that backend |
| ImportFromBooru.ApplyToggles | src/szurubooru_toolkit/scripts/import_from_booru.py:129-134 | Deepbooru on: uploads auto-tag, SauceNAO off, Deepbooru on; off: uploads do not auto-tag; nothing else changes; a missing option raises |
| ImportFromBooru.RunScript | src/szurubooru_toolkit/scripts/import_from_booru.py:122-168 | applies the toggles (the tables afterwards are the toggled ones), then runs the selected backends in order; a missing toggle option ends the run |
| ImportFromBooru.RunBoorus | src/szurubooru_toolkit/scripts/import_from_booru.py:141-166 | the backend loop, calling `ImportBooru` per name, computes the run over the list |
| CreateTags.ConvertTagCategory | src/szurubooru_toolkit/scripts/create_tags.py:11-35 | only the codes 0, 1, 3, 4 and 5 map to a category |
| CreateTags.ConvertTagCategoryInverse | src/szurubooru_toolkit/scripts/create_tags.py:25-31 | the mapping is one-to-one: default, artist, series, character and meta each come from exactly one code |
| CreateTags.ParseTagLine | src/szurubooru_toolkit/scripts/create_tags.py:78-80 | name and category carry no spaces or commas; a line with no comma has no category (so `tag[1]` raises) and its name is the whole stripped, space-free line |
| CreateTags.ParseTagLineOfFormatted | src/szurubooru_toolkit/scripts/create_tags.py:78-80 | a line `name,category` reads back as that name and category |
| CreateTags.ParseTagLineOfFields | src/szurubooru_toolkit/scripts/create_tags.py:78-80 | a line whose stripped, space-free text is `name,category` followed by nothing or by `,` and more fields reads back as that name and category |
| CreateTags.ParseTagLineSpaced | src/szurubooru_toolkit/scripts/create_tags.py:78-80 | spaces inside a field are dropped: `first second, category` reads back as `firstsecond` and `category` |
| CreateTags.IntOf | src/szurubooru_toolkit/scripts/create_tags.py:58-59 | `int()` of a setting: an integer is itself, a boolean is 0 or 1, a float is truncated toward zero |
| CreateTags.HideProgress | src/szurubooru_toolkit/scripts/create_tags.py:62-65 | `globals` wins, a missing key falls back to `create_tags`, a missing `globals` section raises |
| CreateTags.CallsInOrder | src/szurubooru_toolkit/scripts/create_tags.py:71-86 | the calls made are the items' calls in order; every call but the last returned; a finished loop made one non-raising call per item |
| CreateTags.CallsComplete | src/szurubooru_toolkit/scripts/create_tags.py:82-86 | `TagExistsError` does not stop the loop: without other errors every item gets its call, in order |
| CreateTags.CallsStopAt | src/szurubooru_toolkit/scripts/create_tags.py:78-97 | any other error ends the loop |
| CreateTags.CallsSnoc | src/szurubooru_toolkit/scripts/create_tags.py:71-86 | one more item appends its call and continues exactly when the call was built and did not raise |
| CreateTags.CallsStop | src/szurubooru_toolkit/scripts/create_tags.py:71-86 | after a stop, later items change nothing |
| CreateTags.LineCall | src/szurubooru_toolkit/scripts/create_tags.py:78-83 | a tag-file call has a comma-free name and no `overwrite` |
| CreateTags.FormattedLinesCreated | src/szurubooru_toolkit/scripts/create_tags.py:67-86 | a file of `name,category` lines creates each tag in order |
| CreateTags.NoCommaEndsRun | src/szurubooru_toolkit/scripts/create_tags.py:78-80 | a line without a comma ends the run before its call |
| CreateTags.NoCallNoGrowth | src/szurubooru_toolkit/scripts/create_tags.py:78-80 | an item whose call cannot be built is not called |
| CreateTags.CreateEach | src/szurubooru_toolkit/scripts/create_tags.py:71-86 | the file loop computes the creation-loop specification |
| CreateTags.RecordCall | src/szurubooru_toolkit/scripts/create_tags.py:95 | a Danbooru tag's call exists exactly when it has `name` and `category`, and carries `overwrite` |
| CreateTags.PagesCreated | src/szurubooru_toolkit/scripts/create_tags.py:92-97 | every tag of every page is created in page order with its converted category and `overwrite` |
| CreateTags.ConcatMembers | src/szurubooru_toolkit/scripts/create_tags.py:92-93 | every tag visited comes from some page |
| CreateTags.CreateFromPages | src/szurubooru_toolkit/scripts/create_tags.py:92-97 | the nested page and tag loops compute the creation-loop specification over all tags |
| CreateTags.RunScript | src/szurubooru_toolkit/scripts/create_tags.py:54-102 | a missing or non-integer setting ends the run before any call; with a tag file its lines drive the calls; otherwise the downloaded Danbooru pages do |
| CreateTags.CreateFromQuery | src/szurubooru_toolkit/scripts/create_tags.py:88-97 | the tags created from a query are those of the pages `download_tags` fetched, in page order, each with `overwrite` |
| Cli.Updated | src/szurubooru_toolkit/scripts/szuru_toolkit.py:103 | `setdefault(...).update(...)` creates the section if needed, sets one entry and changes nothing else |
| Cli.GlobalSectionOfGroup | src/szurubooru_toolkit/scripts/szuru_toolkit.py:101-116 | url, username, api_token, public and hide_progress go to `globals`; log_colorized, log_file and log_level to `logging`; log_enabled nowhere |
| Cli.GlobalSection | src/szurubooru_toolkit/scripts/szuru_toolkit.py:101-116 | a routed parameter goes to `globals` or `logging`, and to `logging` exactly for `log`, `log_colorized`, `log_file` and `log_level` |
| Cli.GlobalSectionRouting | src/szurubooru_toolkit/scripts/szuru_toolkit.py:101-116 | `globals` exactly for `url`, `username`, `api_token`, `public`, `hide_progress` and the seven upload options; every name outside the three lists is dropped |
| Cli.FromCommandLine | src/szurubooru_toolkit/scripts/szuru_toolkit.py:96-99 | exactly the parameters whose source is the command line are collected |
| Cli.Recorded | src/szurubooru_toolkit/scripts/szuru_toolkit.py:96-116 | recording keeps every existing section, and with no command-line parameter changes nothing |
| Cli.RecordedNewKeys | src/szurubooru_toolkit/scripts/szuru_toolkit.py:101-116 | every section recording adds is the routed section of some command-line parameter |
| Cli.RecordedEntry | src/szurubooru_toolkit/scripts/szuru_toolkit.py:96-116 | an entry holds the value of the last command-line parameter routed to it; with none routed there it is as before; parameter names need not be distinct |
| Cli.RecordedFromCommandLine | src/szurubooru_toolkit/scripts/szuru_toolkit.py:96-116 | collecting first and routing afterwards records the same as routing directly |
| Cli.LastGiven | src/szurubooru_toolkit/scripts/szuru_toolkit.py:242-245 | the last command-line parameter, or none when there is none |
| Cli.LastGivenIsLast | src/szurubooru_toolkit/scripts/szuru_toolkit.py:242-245 | it is the one with no command-line parameter after it |
| Cli.Replaced | src/szurubooru_toolkit/scripts/szuru_toolkit.py:242-245 | only the replaced section (`create_relations`) can change or appear; it is a one-entry section once some parameter came from the command line; with none nothing changes |
| Cli.ReplacedKeepsLast | src/szurubooru_toolkit/scripts/szuru_toolkit.py:242-245 | `create-relations` keeps only the last command-line parameter in its section |
| Cli.ValidatesPathOfModules | src/szurubooru_toolkit/scripts/szuru_toolkit.py:40-41 | only `import_from_url` and `upload_media` validate paths |
| Cli.CommaList | src/szurubooru_toolkit/scripts/szuru_toolkit.py:216 | the items have no spaces or commas, and joined with commas give the input without spaces |
| Cli.CommaListOfJoined | src/szurubooru_toolkit/scripts/szuru_toolkit.py:216 | a list written as `a, b, c` reads back as the list |
| Cli.ListOrEmpty | src/szurubooru_toolkit/scripts/szuru_toolkit.py:303-307 | a given list is split; an absent or empty one becomes `[]` |
| Cli.ListOrAsGiven | src/szurubooru_toolkit/scripts/szuru_toolkit.py:214-219 | a given list is split; an absent or empty one is passed on unchanged |
| Cli.Context.Put | src/szurubooru_toolkit/scripts/szuru_toolkit.py:103 | one `setdefault(...).update(...)` on the context object |
| Cli.Context.RecordGlobalOptions | src/szurubooru_toolkit/scripts/szuru_toolkit.py:93-116 | the group's two loops record the command-line parameters by their routing |
| Cli.Context.CollectCommandLine | src/szurubooru_toolkit/scripts/szuru_toolkit.py:96-99 | the first loop keeps exactly the parameters given on the command line, in order |
| Cli.Context.RecordRouted | src/szurubooru_toolkit/scripts/szuru_toolkit.py:101-116 | the second loop records each collected parameter in the section its name is routed to |
| Cli.Context.RecordCommand | src/szurubooru_toolkit/scripts/szuru_toolkit.py:279-282 | a command's loop records its command-line parameters in its own section |
| Cli.Context.RecordReplacing | src/szurubooru_toolkit/scripts/szuru_toolkit.py:242-245 | `create-relations`' loop assigns its section per parameter |
| Cli.Context.AutoTagger | src/szurubooru_toolkit/scripts/szuru_toolkit.py:205-221 | records, sets up with the recorded object, splits the given tag lists |
| Cli.Context.CreateRelations | src/szurubooru_toolkit/scripts/szuru_toolkit.py:242-248 | replaces, then sets up |
| Cli.Context.RecordAndSetup | src/szurubooru_toolkit/scripts/szuru_toolkit.py:279-285 | records, then sets up; paths are validated only for `upload_media` |
| Cli.Context.DeletePosts | src/szurubooru_toolkit/scripts/szuru_toolkit.py:299-309 | records nothing; the ids list or `[]` |
| Cli.Context.ImportFromUrl | src/szurubooru_toolkit/scripts/szuru_toolkit.py:490-510 | with nothing to import exits 1 and records nothing; else records, validates paths and splits the tags or uses `[]` |
| Cli.Context.ResetPosts | src/szurubooru_toolkit/scripts/szuru_toolkit.py:528-544 | records nothing; both lists split or `[]` |
| Cli.Context.TagPosts | src/szurubooru_toolkit/scripts/szuru_toolkit.py:572-593 | with no action exits 1; else sets up with the object as it was, then records its parameters |
| Upscale.ShouldUpscale | gallery-dl-upscale.py:29-34 | the decision exists exactly when the height is non-zero; a zero height makes the aspect-ratio division raise |
| Upscale.ShouldUpscaleLongerSide | gallery-dl-upscale.py:29-34 | an image is upscaled exactly when its longer side is below the size check |
| Upscale.LastDot | gallery-dl-upscale.py:39 | the index of the last dot, absent exactly when the name has none |
| Upscale.Suffix | gallery-dl-upscale.py:39 | the suffix is empty or a dot followed by a dot-free tail, and ends the name; it is non-empty exactly when the name's last dot is neither its first nor its last character |
| Upscale.Stem | gallery-dl-upscale.py:42 | stem followed by suffix is the name; the suffix is empty or a dot and a dot-free tail |
| Upscale.WithSuffix | gallery-dl-upscale.py:42 | `with_suffix` yields exactly the requested suffix and keeps the stem |
| Upscale.MetadataName | gallery-dl-upscale.py:50 | the metadata file is the image's name plus `.json` |
| Upscale.ConversionNames | gallery-dl-upscale.py:42-54 | `X.png` becomes `X.jpg` and `X.png.json` moves to `X.jpg.json` |
| Upscale.Target | gallery-dl-upscale.py:39-55 | a CPU upscale of a PNG whose JPG was written continues with the `.jpg` name of the same stem; any other file keeps its name |
| Upscale.Converted | gallery-dl-upscale.py:44-54 | after conversion the JPG is present, the PNG and its metadata name are gone, the metadata has moved, and every other file is kept or absent as before |
| Upscale.Run | gallery-dl-upscale.py:21-65 | a missing file exits; a zero height raises; no upscale leaves the folder alone; CPU upscaling of a PNG converts it when the JPG exists, else upscales the PNG after the error message; the waifu2x device is -1 for CPU |

## Left out

- Network, timing and output: the five-second sleeps between retries, logging and progress bars are left out.
- Click's own option parsing, help text and `exit` are not modelled.
- Parsing `config.toml` is not modelled, and neither is top-level TOML that is not a table.
- Config.Settings.Load: the file-system checks of `validate_path` and `validate_deepbooru` arrive as two booleans (`pathsExist`, `modelExists`).
- Float parsing is a parameter, and float rounding is not modelled.
- `int()` does not accept underscores or non-ASCII digits, and lower-casing covers ASCII only.
- Upscale.ShouldUpscale compares `width / height` as exact rationals; binary floating point agrees with this for any realistic image size.
- Image conversion, JPEG quality, file times and the waifu2x run are not modelled.
- Upscale.Run: the script's `argparse` options (`--dir`, `--file`, `--sizecheck` with its default of 3840, `--cpu`) arrive as Run's parameters; the parsing and the default are not modelled.
- `Path.with_suffix`'s errors for an empty name or a bad suffix are not modelled.
- `convert_rating`, pybooru, pixivpy and gelbooru are parameters. Their own behaviour is not part of this model.
- ImportFromBooru.ImportPost: assumes that `upload_media.main` returns. The call has no `try` around it, so an upload that raises would end the run as `Crashed`; the upload itself is not modelled.
- ImportFromBooru.RunScript: `main` takes no arguments and reads the backend and query from `parse_args()`, so the CLI's `module.main(booru, query)` raises a TypeError that `@logger.catch` logs. The model takes the selector and the query as parameters instead.
- `update_db_timestamps.py` and `gallery-dl-extract-archives-with-upscale.py` are not part of this model.
- DanbooruClient.DownloadTags: it builds every page URL up front. The lazy interleaving of the generator with the tag creation it feeds is not captured.
- PixivClient.ExtractPixivArtist: a `create_tag` failure is swallowed and so has no outcome here. Exceptions raised inside `search_artist` are not modelled. `use_pixiv_artist` arrives as a boolean, but it is not among the options `check_attr_set` requires, so when both searches miss the lookup at pixiv.py:156 can raise a KeyError.
- CreateTags.RunScript: a `query` option that is not a string ends the run before any fetch or call, as the `+` that builds the URL raises.
- CreateTags.RunScript: an unreadable tag file is not modelled; the file arrives as its lines.
- Cli.Context.RecordGlobalOptions: the parameters arrive already parsed, so Click's typing and defaults are not modelled.
- The Deepbooru and SauceNAO tagging, the other commands' modules, and szurubooru's API client are not part of this model.
