/** The toolkit's configuration (`szurubooru_toolkit/config.py`): the sections
    read from `config.toml`, the check that every required section and option
    is set, the clean-up of the Szurubooru URL and of the conversion threshold,
    and the `deepbooru_forced` reset.

    Reading and parsing the TOML file, the file-system checks, URL syntax
    validation, `urlsplit` and `float()` are not modelled here: the file's
    tables are the constructor's argument and the rest are parameters. */
module Config {
  import opened Wrappers
  import opened Strings

  /** A scalar option value of `config.toml`. */
  datatype Setting = Flag(b: bool) | Text(s: string) | Int(i: int) | Float(r: real)

  /** One table of `config.toml`: option name to value. */
  type Section = map<string, Setting>

  /** The scheme and path of a URL, as `urllib.parse.urlsplit` gives them. */
  datatype UrlParts = UrlParts(scheme: string, path: string)

  /** Python truthiness of an option value. */
  predicate Truthy(v: Setting) {
    match v
    case Flag(b) => b
    case Text(s) => s != ""
    case Int(i) => i != 0
    case Float(r) => r != 0.0
  }

  /** The `req_opts` table of `check_attr_set`, in its declaration order. */
  const RequiredOptions: seq<(string, seq<string>)> := [
    ("szurubooru", ["url", "username", "api_token", "public"]),
    ("auto_tagger", ["saucenao_api_token", "saucenao_enabled", "deepbooru_enabled", "deepbooru_model",
                     "deepbooru_threshold", "deepbooru_forced", "hide_progress", "tmp_path"]),
    ("upload_media", ["src_path", "hide_progress", "cleanup", "tags", "max_similarity", "auto_tag",
                      "convert_to_jpg", "convert_threshold"]),
    ("import_from_booru", ["deepbooru_enabled"]),
    ("logging", ["log_enabled", "log_file", "log_level", "log_colorized"]),
    ("danbooru", ["user", "api_key"]),
    ("gelbooru", ["user", "api_key"]),
    ("konachan", ["user", "password"]),
    ("yandere", ["user", "password"]),
    ("pixiv", ["user", "password", "token"])
  ]

  /** What `check_attr_set` concludes: all set, or the first missing section
      (checked for every section before any option), or the first missing
      option; both failures end the program. */
  datatype Check = Passed | MissingSection(section: string) | MissingOption(section: string, option: string)

  /** Every required section exists. */
  predicate SectionsPresent(req: seq<(string, seq<string>)>, secs: map<string, Section>, upTo: int)
    requires 0 <= upTo <= |req|
  {
    forall i :: 0 <= i < upTo ==> req[i].0 in secs
  }

  /** Every option of the first `upTo` required sections is set. */
  predicate OptionsPresent(req: seq<(string, seq<string>)>, secs: map<string, Section>, upTo: int)
    requires 0 <= upTo <= |req| && SectionsPresent(req, secs, |req|)
  {
    forall i, k :: 0 <= i < upTo && 0 <= k < |req[i].1| ==> req[i].1[k] in secs[req[i].0]
  }

  /** `s` is a table of `secs` and sets option `o`. */
  predicate HasOption(secs: map<string, Section>, s: string, o: string) {
    s in secs && o in secs[s]
  }

  /** Every section and option of `req_opts` is set. */
  predicate Complete(secs: map<string, Section>) {
    SectionsPresent(RequiredOptions, secs, |RequiredOptions|) && OptionsPresent(RequiredOptions, secs, |RequiredOptions|)
  }

  /** The options the rest of `__init__` reads are there once the check passed. */
  lemma CompleteHasKeys(secs: map<string, Section>)
    requires Complete(secs)
    ensures HasOption(secs, "szurubooru", "url")
    ensures HasOption(secs, "auto_tagger", "deepbooru_enabled") && HasOption(secs, "auto_tagger", "deepbooru_forced")
    ensures HasOption(secs, "upload_media", "convert_to_jpg") && HasOption(secs, "upload_media", "convert_threshold")
  {
    assert RequiredOptions[0].0 == "szurubooru" && RequiredOptions[0].1[0] == "url";
    assert RequiredOptions[1].0 == "auto_tagger" && RequiredOptions[1].1[2] == "deepbooru_enabled"
      && RequiredOptions[1].1[5] == "deepbooru_forced";
    assert RequiredOptions[2].0 == "upload_media" && RequiredOptions[2].1[6] == "convert_to_jpg"
      && RequiredOptions[2].1[7] == "convert_threshold";
  }

  /** Rewriting the value of an option that is set keeps the configuration complete. */
  lemma CompleteUpdate(secs: map<string, Section>, s: string, o: string, v: Setting)
    requires Complete(secs) && HasOption(secs, s, o)
    ensures Complete(secs[s := secs[s][o := v]])
  {
    var updated := secs[s := secs[s][o := v]];
    assert forall t :: t in secs ==> t in updated && secs[t].Keys <= updated[t].Keys;
  }

  /** Setting an option twice leaves the second value. */
  lemma UpdateTwice(secs: map<string, Section>, s: string, o: string, v1: Setting, v2: Setting)
    requires s in secs
    ensures secs[s := secs[s][o := v1]][s := secs[s][o := v1][o := v2]] == secs[s := secs[s][o := v2]]
  {
    assert secs[s][o := v1][o := v2] == secs[s][o := v2];
  }

  /** `secs` with option `o` of section `s` set to `v`. */
  function Assign(secs: map<string, Section>, s: string, o: string, v: Setting): map<string, Section>
    requires s in secs
  {
    secs[s := secs[s][o := v]]
  }

  /** Setting an option that is set keeps the configuration complete and
      leaves every other table as it was. */
  lemma AssignKeeps(secs: map<string, Section>, s: string, o: string, v: Setting)
    requires Complete(secs) && HasOption(secs, s, o)
    ensures var r := Assign(secs, s, o, v);
      Complete(r) && r.Keys == secs.Keys && forall t :: t in secs && t != s ==> r[t] == secs[t]
  {
    CompleteUpdate(secs, s, o, v);
  }

  /** `validate_url` accepts the option: it is text which, once stripped, is a
      URL of scheme `http` or `https`. */
  predicate UrlAccepted(url: Setting, isUrl: string -> bool, urlsplit: string -> UrlParts) {
    url.Text? && isUrl(Strip(url.s)) && urlsplit(Strip(url.s)).scheme in {"http", "https"}
  }

  /** The URL `validate_url` leaves behind once it accepted `url`: stripped,
      and rid of trailing `/` when its path starts with `/`. */
  function CleanUrl(url: string, urlsplit: string -> UrlParts): string {
    var stripped := Strip(url);
    if StartsWith(urlsplit(stripped).path, "/") then RStripChar(stripped, '/') else stripped
  }

  /** The number of bytes `validate_convert_threshold` makes of a threshold:
      "KB" (looked for first) means thousands, "MB" millions; `None` where it
      exits (neither unit) or `float()` raises. */
  function ThresholdBytes(v: Setting, parseFloat: string -> Option<real>): Option<real> {
    if !v.Text? then None
    else if Contains(v.s, "KB") then
      (match parseFloat(RemoveAll(v.s, "KB")) case Some(x) => Some(x * 1000.0) case None => None)
    else if Contains(v.s, "MB") then
      (match parseFloat(RemoveAll(v.s, "MB")) case Some(x) => Some(x * 1000000.0) case None => None)
    else None
  }

  /** The tables after `validate_url`, or `None` where it exits. */
  function UrlStage(secs: map<string, Section>, isUrl: string -> bool, urlsplit: string -> UrlParts)
    : (r: Option<map<string, Section>>)
    requires Complete(secs)
    ensures r.Some? ==> Complete(r.value)
    ensures r.Some? ==> "auto_tagger" in secs && "auto_tagger" in r.value && r.value["auto_tagger"] == secs["auto_tagger"]
    ensures r.Some? ==> "upload_media" in secs && "upload_media" in r.value && r.value["upload_media"] == secs["upload_media"]
  {
    CompleteHasKeys(secs);
    var url := secs["szurubooru"]["url"];
    if UrlAccepted(url, isUrl, urlsplit) then
      var v := Text(CleanUrl(url.s, urlsplit));
      AssignKeeps(secs, "szurubooru", "url", v);
      Some(Assign(secs, "szurubooru", "url", v))
    else None
  }

  /** The tables after `validate_convert_threshold`, or `None` where it exits. */
  function ThresholdStage(secs: map<string, Section>, parseFloat: string -> Option<real>)
    : (r: Option<map<string, Section>>)
    requires Complete(secs)
    ensures r.Some? ==> Complete(r.value)
    ensures r.Some? ==> "auto_tagger" in secs && "auto_tagger" in r.value && r.value["auto_tagger"] == secs["auto_tagger"]
  {
    CompleteHasKeys(secs);
    match ThresholdBytes(secs["upload_media"]["convert_threshold"], parseFloat)
    case None => None
    case Some(b) =>
      AssignKeeps(secs, "upload_media", "convert_threshold", Float(b));
      Some(Assign(secs, "upload_media", "convert_threshold", Float(b)))
  }

  /** The tables after the URL check and, when `convert_to_jpg` is set, the
      threshold conversion; `None` where either exits. */
  function Validated(secs: map<string, Section>, isUrl: string -> bool, urlsplit: string -> UrlParts,
                     parseFloat: string -> Option<real>): (r: Option<map<string, Section>>)
    requires Complete(secs)
    ensures r.Some? ==> Complete(r.value)
    ensures r.Some? ==> "auto_tagger" in secs && "auto_tagger" in r.value && r.value["auto_tagger"] == secs["auto_tagger"]
  {
    match UrlStage(secs, isUrl, urlsplit)
    case None => None
    case Some(s1) =>
      CompleteHasKeys(s1);
      if Truthy(s1["upload_media"]["convert_to_jpg"]) then ThresholdStage(s1, parseFloat) else Some(s1)
  }

  /** The tables after the Deepbooru step: `validate_deepbooru` when Deepbooru
      is enabled (`None` where the model is missing), else `deepbooru_forced`
      switched off. */
  function DeepbooruStage(secs: map<string, Section>, modelExists: bool): (r: Option<map<string, Section>>)
    requires Complete(secs)
    ensures r.Some? ==> Complete(r.value)
  {
    CompleteHasKeys(secs);
    if Truthy(secs["auto_tagger"]["deepbooru_enabled"]) then
      if modelExists then Some(secs) else None
    else
      AssignKeeps(secs, "auto_tagger", "deepbooru_forced", Flag(false));
      Some(Assign(secs, "auto_tagger", "deepbooru_forced", Flag(false)))
  }

  /** What `Config.__init__` makes of the tables read from `config.toml`:
      `check_attr_set`, `validate_path`, `validate_url`, the threshold when
      converting to JPG, and the Deepbooru step, in that order; `None` where
      one of them ends the program. */
  function Loaded(secs: map<string, Section>, pathsExist: bool, isUrl: string -> bool,
                  urlsplit: string -> UrlParts, parseFloat: string -> Option<real>,
                  modelExists: bool): Option<map<string, Section>> {
    if !Complete(secs) || !pathsExist then None
    else
      match Validated(secs, isUrl, urlsplit, parseFloat)
      case None => None
      case Some(s2) => DeepbooruStage(s2, modelExists)
  }

  /** Every check after `check_attr_set` and `validate_path` passes on a
      complete configuration. */
  predicate ChecksPass(secs: map<string, Section>, isUrl: string -> bool, urlsplit: string -> UrlParts,
                       parseFloat: string -> Option<real>, modelExists: bool)
    requires Complete(secs)
  {
    CompleteHasKeys(secs);
    && UrlAccepted(secs["szurubooru"]["url"], isUrl, urlsplit)
    && (Truthy(secs["upload_media"]["convert_to_jpg"]) ==>
          ThresholdBytes(secs["upload_media"]["convert_threshold"], parseFloat).Some?)
    && (Truthy(secs["auto_tagger"]["deepbooru_enabled"]) ==> modelExists)
  }

  /** Loading succeeds exactly when every section and option is set, the
      paths exist, the URL is accepted, the threshold converts when JPG
      conversion is on, and the Deepbooru model exists when Deepbooru is on. */
  lemma LoadedIff(secs: map<string, Section>, pathsExist: bool, isUrl: string -> bool,
                  urlsplit: string -> UrlParts, parseFloat: string -> Option<real>, modelExists: bool)
    ensures Loaded(secs, pathsExist, isUrl, urlsplit, parseFloat, modelExists).Some? <==>
      Complete(secs) && pathsExist && ChecksPass(secs, isUrl, urlsplit, parseFloat, modelExists)
  {
    if Complete(secs) && pathsExist {
      CompleteHasKeys(secs);
      var s1 := UrlStage(secs, isUrl, urlsplit);
      if s1.Some? {
        CompleteHasKeys(s1.value);
        var s2 := Validated(secs, isUrl, urlsplit, parseFloat);
        if s2.Some? {
          CompleteHasKeys(s2.value);
        }
      }
    }
  }

  /** The three updates loading makes, one per stage, when it succeeds. */
  lemma LoadedSteps(secs: map<string, Section>, pathsExist: bool, isUrl: string -> bool,
                    urlsplit: string -> UrlParts, parseFloat: string -> Option<real>, modelExists: bool)
    requires Loaded(secs, pathsExist, isUrl, urlsplit, parseFloat, modelExists).Some?
    ensures Complete(secs) && pathsExist
    ensures HasOption(secs, "szurubooru", "url") && secs["szurubooru"]["url"].Text?
    ensures HasOption(secs, "upload_media", "convert_to_jpg") && HasOption(secs, "upload_media", "convert_threshold")
    ensures HasOption(secs, "auto_tagger", "deepbooru_enabled") && HasOption(secs, "auto_tagger", "deepbooru_forced")
    ensures Truthy(secs["upload_media"]["convert_to_jpg"]) ==>
      ThresholdBytes(secs["upload_media"]["convert_threshold"], parseFloat).Some?
    ensures Truthy(secs["auto_tagger"]["deepbooru_enabled"]) ==> modelExists
    ensures var s1 := Assign(secs, "szurubooru", "url", Text(CleanUrl(secs["szurubooru"]["url"].s, urlsplit)));
      var s2 := if Truthy(secs["upload_media"]["convert_to_jpg"])
        then Assign(s1, "upload_media", "convert_threshold",
               Float(ThresholdBytes(secs["upload_media"]["convert_threshold"], parseFloat).value))
        else s1;
      Loaded(secs, pathsExist, isUrl, urlsplit, parseFloat, modelExists).value ==
        if Truthy(secs["auto_tagger"]["deepbooru_enabled"]) then s2
        else Assign(s2, "auto_tagger", "deepbooru_forced", Flag(false))
  {
    CompleteHasKeys(secs);
    var url := secs["szurubooru"]["url"];
    var s1 := UrlStage(secs, isUrl, urlsplit).value;
    assert s1 == Assign(secs, "szurubooru", "url", Text(CleanUrl(url.s, urlsplit)));
    CompleteHasKeys(s1);
    var s2 := Validated(secs, isUrl, urlsplit, parseFloat).value;
    CompleteHasKeys(s2);
  }

  /** A loaded configuration is complete, has the same tables, and differs
      from the file's tables in three options only: the cleaned URL, the
      threshold in bytes (when converting to JPG), and `deepbooru_forced`
      switched off (when Deepbooru is off). */
  lemma LoadedValues(secs: map<string, Section>, pathsExist: bool, isUrl: string -> bool,
                     urlsplit: string -> UrlParts, parseFloat: string -> Option<real>, modelExists: bool)
    requires Loaded(secs, pathsExist, isUrl, urlsplit, parseFloat, modelExists).Some?
    ensures var r := Loaded(secs, pathsExist, isUrl, urlsplit, parseFloat, modelExists).value;
      && Complete(secs) && Complete(r) && secs.Keys == r.Keys
      && HasOption(secs, "szurubooru", "url") && secs["szurubooru"]["url"].Text?
      && HasOption(secs, "upload_media", "convert_to_jpg") && HasOption(secs, "upload_media", "convert_threshold")
      && HasOption(secs, "auto_tagger", "deepbooru_enabled")
      && r["szurubooru"] == secs["szurubooru"]["url" := Text(CleanUrl(secs["szurubooru"]["url"].s, urlsplit))]
      && (Truthy(secs["upload_media"]["convert_to_jpg"]) ==>
            && ThresholdBytes(secs["upload_media"]["convert_threshold"], parseFloat).Some?
            && r["upload_media"] == secs["upload_media"]["convert_threshold" :=
                 Float(ThresholdBytes(secs["upload_media"]["convert_threshold"], parseFloat).value)])
      && (!Truthy(secs["upload_media"]["convert_to_jpg"]) ==> r["upload_media"] == secs["upload_media"])
      && (Truthy(secs["auto_tagger"]["deepbooru_enabled"]) ==> modelExists && r["auto_tagger"] == secs["auto_tagger"])
      && (!Truthy(secs["auto_tagger"]["deepbooru_enabled"]) ==>
            r["auto_tagger"] == secs["auto_tagger"]["deepbooru_forced" := Flag(false)])
      && forall t :: t in secs && t != "szurubooru" && t != "upload_media" && t != "auto_tagger" ==> r[t] == secs[t]
  {
    LoadedSteps(secs, pathsExist, isUrl, urlsplit, parseFloat, modelExists);
    var url := Text(CleanUrl(secs["szurubooru"]["url"].s, urlsplit));
    var threshold := if Truthy(secs["upload_media"]["convert_to_jpg"])
      then Some(Float(ThresholdBytes(secs["upload_media"]["convert_threshold"], parseFloat).value)) else None;
    ThreeAssigns(secs, url, threshold, !Truthy(secs["auto_tagger"]["deepbooru_enabled"]));
  }

  /** The URL, then possibly the threshold, then possibly `deepbooru_forced`
      set on a complete configuration: each table but those three is as it
      was, and those three differ in their one option. */
  lemma ThreeAssigns(secs: map<string, Section>, url: Setting, threshold: Option<Setting>, forceOff: bool)
    requires Complete(secs) && HasOption(secs, "szurubooru", "url")
    requires HasOption(secs, "upload_media", "convert_threshold") && HasOption(secs, "auto_tagger", "deepbooru_forced")
    ensures var s1 := Assign(secs, "szurubooru", "url", url);
      var s2 := if threshold.Some? then Assign(s1, "upload_media", "convert_threshold", threshold.value) else s1;
      var r := if forceOff then Assign(s2, "auto_tagger", "deepbooru_forced", Flag(false)) else s2;
      && Complete(r) && r.Keys == secs.Keys
      && r["szurubooru"] == secs["szurubooru"]["url" := url]
      && r["upload_media"] == (if threshold.Some? then secs["upload_media"]["convert_threshold" := threshold.value]
                               else secs["upload_media"])
      && r["auto_tagger"] == (if forceOff then secs["auto_tagger"]["deepbooru_forced" := Flag(false)]
                              else secs["auto_tagger"])
      && forall t :: t in secs && t != "szurubooru" && t != "upload_media" && t != "auto_tagger" ==> r[t] == secs[t]
  {
    var s1 := Assign(secs, "szurubooru", "url", url);
    AssignKeeps(secs, "szurubooru", "url", url);
    var s2 := s1;
    if threshold.Some? {
      s2 := Assign(s1, "upload_media", "convert_threshold", threshold.value);
      AssignKeeps(s1, "upload_media", "convert_threshold", threshold.value);
    }
    if forceOff {
      AssignKeeps(s2, "auto_tagger", "deepbooru_forced", Flag(false));
    }
  }

  /** The configuration read from `config.toml`: `setattr` makes each top-level
      table an attribute, here one entry of `sections`. */
  class Settings {
    var sections: map<string, Section>

    constructor (tables: map<string, Section>)
      ensures sections == tables
    {
      sections := tables;
    }

    /** `Config.check_attr_set`, over the table `req`. Sections are checked
        first, all of them, in order; then options, section by section. */
    method CheckAttrSet(req: seq<(string, seq<string>)>) returns (c: Check)
      ensures c == Passed <==> SectionsPresent(req, sections, |req|) && OptionsPresent(req, sections, |req|)
      ensures c.MissingSection? ==> exists i :: (0 <= i < |req| && req[i].0 == c.section
        && c.section !in sections && SectionsPresent(req, sections, i))
      ensures c.MissingOption? ==> SectionsPresent(req, sections, |req|) && exists i, k ::
        0 <= i < |req| && 0 <= k < |req[i].1| && req[i].0 == c.section && req[i].1[k] == c.option
        && c.option !in sections[c.section] && OptionsPresent(req, sections, i)
        && forall m :: 0 <= m < k ==> req[i].1[m] in sections[c.section]
    {
      for i := 0 to |req|
        invariant SectionsPresent(req, sections, i)
      {
        if req[i].0 !in sections {
          return MissingSection(req[i].0);
        }
      }
      for i := 0 to |req|
        invariant OptionsPresent(req, sections, i)
      {
        var section := req[i].0;
        var options := req[i].1;
        for k := 0 to |options|
          invariant forall m :: 0 <= m < k ==> options[m] in sections[section]
        {
          if options[k] !in sections[section] {
            return MissingOption(section, options[k]);
          }
        }
      }
      return Passed;
    }

    /** `Config.validate_url`. The URL is stripped and stored before anything
        else; `isUrl` stands for `validators.url` and `urlsplit` gives the URL's
        scheme and path. A URL that is not text cannot be stripped and fails. */
    method ValidateUrl(isUrl: string -> bool, urlsplit: string -> UrlParts) returns (ok: bool)
      requires "szurubooru" in sections && "url" in sections["szurubooru"]
      modifies this
      ensures !old(sections["szurubooru"]["url"]).Text? ==> !ok && sections == old(sections)
      ensures old(sections["szurubooru"]["url"]).Text? ==>
        var stripped := Strip(old(sections["szurubooru"]["url"]).s);
        var parts := urlsplit(stripped);
        && (ok <==> isUrl(stripped) && parts.scheme in {"http", "https"})
        && sections == old(sections)["szurubooru" := old(sections["szurubooru"])["url" :=
             Text(if ok && StartsWith(parts.path, "/") then RStripChar(stripped, '/') else stripped)]]
    {
      var url := sections["szurubooru"]["url"];
      if !url.Text? {
        return false;
      }
      var stripped := Strip(url.s);
      SetOption("szurubooru", "url", Text(stripped));
      if !isUrl(stripped) {
        return false;
      }
      var parts := urlsplit(stripped);
      if parts.scheme !in {"http", "https"} {
        return false;
      }
      if StartsWith(parts.path, "/") {
        SetOption("szurubooru", "url", Text(RStripChar(stripped, '/')));
        UpdateTwice(old(sections), "szurubooru", "url", Text(stripped), Text(RStripChar(stripped, '/')));
      }
      return true;
    }

    /** `self.<s>[o] = v` on a section that exists. */
    method SetOption(s: string, o: string, v: Setting)
      requires s in sections
      modifies this
      ensures sections == old(sections)[s := old(sections)[s][o := v]]
    {
      sections := sections[s := sections[s][o := v]];
    }

    /** `Config.validate_convert_threshold`: a threshold such as "3MB" becomes a
        number of bytes. `parseFloat` stands for `float()` and gives `None` where
        that raises. "KB" is looked for before "MB". */
    method ValidateConvertThreshold(parseFloat: string -> Option<real>) returns (ok: bool)
      requires "upload_media" in sections && "convert_threshold" in sections["upload_media"]
      modifies this
      ensures var v := old(sections["upload_media"]["convert_threshold"]);
        var multiplier: real := if v.Text? && Contains(v.s, "KB") then 1000.0 else 1000000.0;
        var number := if v.Text? then parseFloat(RemoveAll(v.s, if Contains(v.s, "KB") then "KB" else "MB")) else None;
        && (ok <==> v.Text? && (Contains(v.s, "KB") || Contains(v.s, "MB")) && number.Some?)
        && (ok ==> sections == old(sections)["upload_media" :=
              old(sections["upload_media"])["convert_threshold" := Float(number.value * multiplier)]])
        && (!ok ==> sections == old(sections))
    {
      var human := sections["upload_media"]["convert_threshold"];
      if !human.Text? || !(Contains(human.s, "KB") || Contains(human.s, "MB")) {
        return false;
      }
      var number: Option<real>;
      var multiplier: real;
      if Contains(human.s, "KB") {
        number, multiplier := parseFloat(RemoveAll(human.s, "KB")), 1000.0;
      } else {
        number, multiplier := parseFloat(RemoveAll(human.s, "MB")), 1000000.0;
      }
      if number.None? {
        return false;
      }
      SetOption("upload_media", "convert_threshold", Float(number.value * multiplier));
      return true;
    }

    /** The part of `Config.__init__` after the tables are read: the checks in
        order, each of which may end the program (`ok` false). `pathsExist`
        and `modelExists` are the outcomes of `validate_path` and
        `validate_deepbooru`. */
    method Load(pathsExist: bool, isUrl: string -> bool, urlsplit: string -> UrlParts,
                parseFloat: string -> Option<real>, modelExists: bool) returns (ok: bool)
      modifies this
      ensures ok <==> Loaded(old(sections), pathsExist, isUrl, urlsplit, parseFloat, modelExists).Some?
      ensures ok ==> sections == Loaded(old(sections), pathsExist, isUrl, urlsplit, parseFloat, modelExists).value
      ensures ok ==> Complete(old(sections)) && Complete(sections) && pathsExist
      ensures ok ==> (HasOption(old(sections), "auto_tagger", "deepbooru_enabled")
        && HasOption(sections, "auto_tagger", "deepbooru_enabled"))
      ensures ok ==>
        var before, after := old(sections)["auto_tagger"], sections["auto_tagger"];
        if Truthy(after["deepbooru_enabled"]) then modelExists && after == before
        else after == before["deepbooru_forced" := Flag(false)]
    {
      ghost var s0 := sections;
      var c := CheckAttrSet(RequiredOptions);
      if c != Passed || !pathsExist {
        return false;
      }
      ok := ValidateChecked(isUrl, urlsplit, parseFloat);
      if !ok {
        return false;
      }
      ghost var s2 := sections;
      assert Validated(s0, isUrl, urlsplit, parseFloat) == Some(s2);
      assert Loaded(s0, pathsExist, isUrl, urlsplit, parseFloat, modelExists) == DeepbooruStage(s2, modelExists);
      ok := ApplyDeepbooru(modelExists);
    }

    /** The URL and, when `convert_to_jpg` is set, the convert threshold, on a
        configuration that passed `check_attr_set`; `auto_tagger` is not touched. */
    method ValidateChecked(isUrl: string -> bool, urlsplit: string -> UrlParts,
                           parseFloat: string -> Option<real>) returns (ok: bool)
      requires Complete(sections)
      modifies this
      ensures ok <==> Validated(old(sections), isUrl, urlsplit, parseFloat).Some?
      ensures ok ==> sections == Validated(old(sections), isUrl, urlsplit, parseFloat).value
      ensures ok ==> Complete(sections)
      ensures ok ==> ("auto_tagger" in old(sections) && "auto_tagger" in sections
        && sections["auto_tagger"] == old(sections)["auto_tagger"])
    {
      ok := CheckedUrl(isUrl, urlsplit);
      if !ok {
        return false;
      }
      CompleteHasKeys(sections);
      if Truthy(sections["upload_media"]["convert_to_jpg"]) {
        ok := CheckedThreshold(parseFloat);
      }
    }

    /** `validate_url` on a complete configuration keeps it complete. */
    method CheckedUrl(isUrl: string -> bool, urlsplit: string -> UrlParts) returns (ok: bool)
      requires Complete(sections)
      modifies this
      ensures ok <==> UrlStage(old(sections), isUrl, urlsplit).Some?
      ensures ok ==> sections == UrlStage(old(sections), isUrl, urlsplit).value
      ensures ok ==> Complete(sections)
      ensures ok ==> ("auto_tagger" in old(sections) && "auto_tagger" in sections
        && sections["auto_tagger"] == old(sections)["auto_tagger"])
    {
      CompleteHasKeys(sections);
      ghost var start := sections;
      ok := ValidateUrl(isUrl, urlsplit);
      if ok {
        CompleteUpdate(start, "szurubooru", "url", sections["szurubooru"]["url"]);
        assert sections == start["szurubooru" := start["szurubooru"]["url" := sections["szurubooru"]["url"]]];
      }
    }

    /** `validate_convert_threshold` on a complete configuration keeps it complete. */
    method CheckedThreshold(parseFloat: string -> Option<real>) returns (ok: bool)
      requires Complete(sections)
      modifies this
      ensures ok <==> ThresholdStage(old(sections), parseFloat).Some?
      ensures ok ==> sections == ThresholdStage(old(sections), parseFloat).value
      ensures ok ==> Complete(sections)
      ensures ok ==> ("auto_tagger" in old(sections) && "auto_tagger" in sections
        && sections["auto_tagger"] == old(sections)["auto_tagger"])
    {
      CompleteHasKeys(sections);
      ghost var start := sections;
      ok := ValidateConvertThreshold(parseFloat);
      if ok {
        CompleteUpdate(start, "upload_media", "convert_threshold", sections["upload_media"]["convert_threshold"]);
        assert sections == start["upload_media" := start["upload_media"]["convert_threshold" := sections["upload_media"]["convert_threshold"]]];
      }
    }

    /** `validate_deepbooru` when Deepbooru is enabled; otherwise
        `deepbooru_forced` is switched off. */
    method ApplyDeepbooru(modelExists: bool) returns (ok: bool)
      requires Complete(sections)
      modifies this
      ensures ok <==> DeepbooruStage(old(sections), modelExists).Some?
      ensures ok ==> sections == DeepbooruStage(old(sections), modelExists).value
      ensures ok ==> Complete(sections)
      ensures HasOption(old(sections), "auto_tagger", "deepbooru_enabled")
      ensures HasOption(sections, "auto_tagger", "deepbooru_enabled")
      ensures var before, after := old(sections)["auto_tagger"], sections["auto_tagger"];
        && (ok <==> !Truthy(before["deepbooru_enabled"]) || modelExists)
        && if Truthy(before["deepbooru_enabled"]) then after == before
           else after == before["deepbooru_forced" := Flag(false)]
    {
      CompleteHasKeys(sections);
      if Truthy(sections["auto_tagger"]["deepbooru_enabled"]) {
        ok := modelExists;
      } else {
        CompleteUpdate(sections, "auto_tagger", "deepbooru_forced", Flag(false));
        SetOption("auto_tagger", "deepbooru_forced", Flag(false));
        ok := true;
      }
    }
  }
}
