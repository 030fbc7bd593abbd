/** autodocai/config.py: settings from the environment and the command line,
    and their validation. */
module Config {
  import opened Wrappers
  import opened Text
  import opened Schemas
  import opened Terminal

  datatype LogLevel = DEBUG | INFO | WARNING | ERROR

  /** `LogLevel(value)`: only the four member values name a level. */
  function ParseLogLevel(s: string): (r: Option<LogLevel>)
    ensures r.Some? <==> s in {"DEBUG", "INFO", "WARNING", "ERROR"}
  {
    if s == "DEBUG" then Some(DEBUG)
    else if s == "INFO" then Some(INFO)
    else if s == "WARNING" then Some(WARNING)
    else if s == "ERROR" then Some(ERROR)
    else None
  }

  /** The fields of `AppConfig`, as one value. The four "required" strings are
      whatever the environment gave, so they may be None. */
  datatype Settings = Settings(
    target_repo_url: Option<string>,
    output_dir: Option<string>,
    openrouter_api_key: Option<string>,
    qdrant_url: Option<string>,
    github_pat: Option<string>,
    output_languages: seq<string>,
    log_level: LogLevel,
    embedding_model_name: string,
    summarizer_model_name: string,
    translation_model_name: string,
    rag_model_name: string,
    sendgrid_api_key: Option<string>,
    sendgrid_from_email: Option<string>,
    notification_email_to: Option<string>,
    git_executable_path: Option<string>,
    debug: bool)

  /** The process environment. */
  type Environ = map<string, string>

  function GetEnv(environ: Environ, name: string): Option<string>
  {
    if name in environ then Some(environ[name]) else None
  }

  function GetEnvOr(environ: Environ, name: string, default: string): string
  {
    if name in environ then environ[name] else default
  }

  /** Python's `a or b` on optional strings. */
  function Or(a: Option<string>, b: Option<string>): (r: Option<string>)
    ensures Truthy(a) ==> r == a
    ensures !Truthy(a) ==> r == b
  {
    if Truthy(a) then a else b
  }

  /** The comprehension `[lang.strip() for lang in parts if lang.strip()]`. */
  function NonBlankStripped(parts: seq<string>): (r: seq<string>)
    ensures forall k :: 0 <= k < |r| ==> r[k] != "" && IsStripped(r[k])
  {
    if parts == [] then []
    else
      var rest := NonBlankStripped(parts[1..]);
      var head := Strip(parts[0]);
      if head != "" then
        NamedCons(head, rest);
        [head] + rest
      else rest
  }

  /** A non-empty, stripped name in front of a list of such names. */
  lemma NamedCons(head: string, rest: seq<string>)
    requires head != "" && IsStripped(head)
    requires forall k :: 0 <= k < |rest| ==> rest[k] != "" && IsStripped(rest[k])
    ensures forall k :: 0 <= k < |[head] + rest| ==> ([head] + rest)[k] != "" && IsStripped(([head] + rest)[k])
  {
    forall k | 0 <= k < |[head] + rest|
      ensures ([head] + rest)[k] != "" && IsStripped(([head] + rest)[k])
    {
      if k > 0 {
        assert ([head] + rest)[k] == rest[k - 1];
      }
    }
  }

  /** The language list of `from_env_and_args`. */
  function ParseLanguages(s: Option<string>): (r: seq<string>)
  {
    if Truthy(s) then NonBlankStripped(Split(s.value, ",")) else ["EN"]
  }

  /** Each parsed language is a non-empty, stripped name, and a missing or
      empty list string means English only. */
  lemma ParseLanguagesShape(s: Option<string>)
    ensures forall k :: 0 <= k < |ParseLanguages(s)| ==>
      ParseLanguages(s)[k] != "" && IsStripped(ParseLanguages(s)[k])
    ensures !Truthy(s) ==> ParseLanguages(s) == ["EN"]
  {
    if !Truthy(s) {
      assert ParseLanguages(s) == ["EN"];
      assert IsStripped("EN");
    }
  }

  /** Writing a list of language names with "," and parsing it gives the list
      back. */
  lemma ParseLanguagesRoundTrip(names: seq<string>)
    requires |names| >= 1
    requires forall k :: 0 <= k < |names| ==> names[k] != "" && IsStripped(names[k]) && ',' !in names[k]
    ensures ParseLanguages(Some(Join(names, ","))) == names
  {
    SplitJoin(names, ',');
    JoinNonEmpty(names, ",");
    NonBlankStrippedKeeps(names);
  }

  lemma {:induction false} JoinNonEmpty(parts: seq<string>, sep: string)
    requires |parts| >= 1 && parts[0] != ""
    ensures Join(parts, sep) != ""
  {
    if |parts| > 1 {
      assert Join(parts, sep) == parts[0] + sep + Join(parts[1..], sep);
      assert |Join(parts, sep)| >= |parts[0]|;
    }
  }

  lemma {:induction false} NonBlankStrippedKeeps(names: seq<string>)
    requires forall k :: 0 <= k < |names| ==> names[k] != "" && IsStripped(names[k])
    ensures NonBlankStripped(names) == names
    decreases |names|
  {
    if names != [] {
      var head := names[0];
      var tail := names[1..];
      assert forall k :: 0 <= k < |tail| ==> tail[k] == names[k + 1];
      StripStripped(head);
      NonBlankStrippedKeeps(tail);
      assert NonBlankStripped(names) == [head] + NonBlankStripped(tail);
      assert names == [head] + tail;
    }
  }

  /** `AppConfig.from_env_and_args`: command-line values win over the
      environment; an unrecognised LOG_LEVEL makes construction fail. */
  function FromEnvAndArgs(repoUrl: Option<string>, outputDir: Option<string>, languages: Option<string>,
                          githubPat: Option<string>, debug: bool, environ: Environ): (r: Result<Settings>)
    ensures r.Ok? <==> ParseLogLevel(GetEnvOr(environ, "LOG_LEVEL", "INFO")).Some?
    ensures r.Ok? ==> r.value.target_repo_url == Or(repoUrl, GetEnv(environ, "TARGET_REPO_URL"))
    ensures r.Ok? ==> r.value.output_dir == Or(outputDir, GetEnv(environ, "OUTPUT_DIR"))
    ensures r.Ok? ==> r.value.github_pat == Or(githubPat, GetEnv(environ, "GITHUB_PAT"))
    ensures r.Ok? ==>
      r.value.output_languages == ParseLanguages(Or(languages, Some(GetEnvOr(environ, "OUTPUT_LANGUAGES", "EN,VI"))))
    ensures r.Ok? ==> r.value.qdrant_url == Some(GetEnvOr(environ, "QDRANT_URL", "http://localhost:6333"))
    ensures r.Ok? ==> r.value.debug == debug
  {
    var level := GetEnvOr(environ, "LOG_LEVEL", "INFO");
    match ParseLogLevel(level)
    case None => Err("'" + level + "' is not a valid LogLevel")
    case Some(lv) =>
      Ok(Settings(
        target_repo_url := Or(repoUrl, GetEnv(environ, "TARGET_REPO_URL")),
        output_dir := Or(outputDir, GetEnv(environ, "OUTPUT_DIR")),
        openrouter_api_key := GetEnv(environ, "OPENROUTER_API_KEY"),
        qdrant_url := Some(GetEnvOr(environ, "QDRANT_URL", "http://localhost:6333")),
        github_pat := Or(githubPat, GetEnv(environ, "GITHUB_PAT")),
        output_languages := ParseLanguages(Or(languages, Some(GetEnvOr(environ, "OUTPUT_LANGUAGES", "EN,VI")))),
        log_level := lv,
        embedding_model_name := GetEnvOr(environ, "EMBEDDING_MODEL_NAME", "openai/text-embedding-3-small"),
        summarizer_model_name := GetEnvOr(environ, "SUMMARIZER_MODEL_NAME", "anthropic/claude-3-haiku"),
        translation_model_name := GetEnvOr(environ, "TRANSLATION_MODEL_NAME", "google/gemini-pro"),
        rag_model_name := GetEnvOr(environ, "RAG_MODEL_NAME", "anthropic/claude-3-haiku"),
        sendgrid_api_key := GetEnv(environ, "SENDGRID_API_KEY"),
        sendgrid_from_email := GetEnv(environ, "SENDGRID_FROM_EMAIL"),
        notification_email_to := GetEnv(environ, "NOTIFICATION_EMAIL_TO"),
        git_executable_path := GetEnv(environ, "GIT_EXECUTABLE_PATH"),
        debug := debug))
  }

  /** The environment default "EN,VI" asks for English and Vietnamese. */
  lemma DefaultLanguages()
    ensures ParseLanguages(Some("EN,VI")) == ["EN", "VI"]
  {
    var names := ["EN", "VI"];
    assert Join(names, ",") == "EN,VI" by {
      assert Join(names[1..], ",") == "VI";
    }
    assert IsStripped(names[0]) && IsStripped(names[1]);
    ParseLanguagesRoundTrip(names);
  }

  // ---------------------------------------------------------------- validate

  predicate Supported(lang: string)
  {
    lang == "EN" || lang == "VI"
  }

  /** `[l for l in langs if l in ["EN", "VI"]]` */
  function FilterSupported(langs: seq<string>): (r: seq<string>)
    ensures forall k :: 0 <= k < |r| ==> Supported(r[k])
    ensures |r| <= |langs|
  {
    if langs == [] then []
    else
      var rest := FilterSupported(langs[1..]);
      if Supported(langs[0]) then [langs[0]] + rest else rest
  }

  /** The labels `validate` reports as missing, in order. */
  function MissingRequired(s: Settings): (r: seq<string>)
    ensures r == [] <==> Truthy(s.target_repo_url) && Truthy(s.output_dir)
                         && Truthy(s.openrouter_api_key) && Truthy(s.qdrant_url)
  {
    (if Truthy(s.target_repo_url) then [] else ["Repository URL (TARGET_REPO_URL)"])
    + (if Truthy(s.output_dir) then [] else ["Output directory (OUTPUT_DIR)"])
    + (if Truthy(s.openrouter_api_key) then [] else ["OpenRouter API key (OPENROUTER_API_KEY)"])
    + (if Truthy(s.qdrant_url) then [] else ["Qdrant URL (QDRANT_URL)"])
  }

  /** Either every notification setting is truthy, or none is. */
  predicate NotificationsAllOrNone(s: Settings)
  {
    (Truthy(s.sendgrid_api_key) && Truthy(s.sendgrid_from_email) && Truthy(s.notification_email_to))
    || (!Truthy(s.sendgrid_api_key) && !Truthy(s.sendgrid_from_email) && !Truthy(s.notification_email_to))
  }

  /** The SendGrid labels `validate` reports as missing, in order. */
  function MissingNotification(s: Settings): (r: seq<string>)
    ensures r == [] <==> Truthy(s.sendgrid_api_key) && Truthy(s.sendgrid_from_email) && Truthy(s.notification_email_to)
  {
    (if Truthy(s.sendgrid_api_key) then [] else ["SendGrid API key (SENDGRID_API_KEY)"])
    + (if Truthy(s.sendgrid_from_email) then [] else ["SendGrid from email (SENDGRID_FROM_EMAIL)"])
    + (if Truthy(s.notification_email_to) then [] else ["Notification recipient email (NOTIFICATION_EMAIL_TO)"])
  }

  // The lines `validate` echoes. Each is written as its leading mark and
  // word, then the rest, so that the lemmas below can read the mark off.
  const MissingHeader := "❌ Missing" + " required configuration:"
  const DebugLine := "🔍 Debug" + " mode enabled"
  const NoLanguagesLine := "⚠️ No" + " valid languages specified. Defaulting to English (EN)."
  const NotifyHeader := "⚠️ Incomplete" + " notification configuration. Email notifications will be disabled:"

  function WarningLine(lang: string): string
  {
    "⚠️ Warning:" + " Unsupported language '" + lang + "'. Currently only EN and VI are supported."
  }

  /** One warning per unsupported entry of the list the loop runs over. */
  function UnsupportedWarnings(langs: seq<string>): seq<string>
    decreases |langs|
  {
    if langs == [] then []
    else
      var last := langs[|langs| - 1];
      UnsupportedWarnings(langs[..|langs| - 1]) + (if Supported(last) then [] else [WarningLine(last)])
  }

  /** A prefix one longer adds the warning for the next entry, if any. */
  lemma UnsupportedWarningsSnoc(langs: seq<string>, i: nat)
    requires i < |langs|
    ensures UnsupportedWarnings(langs[..i + 1])
            == UnsupportedWarnings(langs[..i]) + (if Supported(langs[i]) then [] else [WarningLine(langs[i])])
  {
    assert langs[..i + 1][..i] == langs[..i];
  }

  /** The incomplete-notification notice and one line per missing setting,
      when some but not all of them are given. */
  function NotifyLines(s: Settings): seq<string>
  {
    var anySet := Truthy(s.sendgrid_api_key) || Truthy(s.sendgrid_from_email) || Truthy(s.notification_email_to);
    if anySet && MissingNotification(s) != [] then [NotifyHeader] + Bulleted("   - Missing ", MissingNotification(s))
    else []
  }

  /** The notification lines depend on the three SendGrid settings alone. */
  lemma NotifyLinesSame(a: Settings, b: Settings)
    requires a.sendgrid_api_key == b.sendgrid_api_key && a.sendgrid_from_email == b.sendgrid_from_email
    requires a.notification_email_to == b.notification_email_to
    ensures NotifyLines(a) == NotifyLines(b)
  {
    assert MissingNotification(a) == MissingNotification(b);
  }

  /** The debug notice, when `--debug` raises the level. */
  function DebugLines(s: Settings): seq<string>
  {
    if s.debug && s.log_level != DEBUG then [DebugLine] else []
  }

  /** The language warnings, then the English fallback notice when no
      supported language is left. */
  function LanguageLines(langs: seq<string>): seq<string>
  {
    UnsupportedWarnings(langs) + (if FilterSupported(langs) == [] then [NoLanguagesLine] else [])
  }

  /** Everything `validate` echoes for the settings it starts from. */
  function ValidateLines(s: Settings): seq<string>
  {
    var missing := MissingRequired(s);
    if missing != [] then [MissingHeader] + Bulleted("   - ", missing)
    else DebugLines(s) + LanguageLines(s.output_languages) + NotifyLines(s)
  }

  /** A missing required setting prints the header and then one
      "   - <label>" line per missing setting, in order, and nothing else. */
  lemma MissingLines(s: Settings)
    requires MissingRequired(s) != []
    ensures var v := ValidateLines(s); var missing := MissingRequired(s);
      && |v| == |missing| + 1 && v[0] == MissingHeader
      && forall k :: 0 <= k < |missing| ==> v[k + 1] == "   - " + missing[k]
  {
    var missing := MissingRequired(s);
    BulletedAt("   - ", missing);
    var v := ValidateLines(s);
    assert v == [MissingHeader] + Bulleted("   - ", missing);
    forall k | 0 <= k < |missing|
      ensures v[k + 1] == "   - " + missing[k]
    {
      assert v[k + 1] == Bulleted("   - ", missing)[k];
    }
  }

  /** Each warning names an unsupported language given, and every
      unsupported language given is warned about. */
  lemma {:induction false} WarningsNamed(langs: seq<string>)
    ensures forall w :: w in UnsupportedWarnings(langs) ==>
      exists k :: 0 <= k < |langs| && !Supported(langs[k]) && w == WarningLine(langs[k])
    ensures forall k :: 0 <= k < |langs| && !Supported(langs[k]) ==> WarningLine(langs[k]) in UnsupportedWarnings(langs)
    decreases |langs|
  {
    if langs != [] {
      var init := langs[..|langs| - 1];
      var last := langs[|langs| - 1];
      WarningsNamed(init);
      var w0 := UnsupportedWarnings(init);
      assert UnsupportedWarnings(langs) == w0 + (if Supported(last) then [] else [WarningLine(last)]);
      forall w | w in UnsupportedWarnings(langs)
        ensures exists k :: 0 <= k < |langs| && !Supported(langs[k]) && w == WarningLine(langs[k])
      {
        if w in w0 {
          var k :| 0 <= k < |init| && !Supported(init[k]) && w == WarningLine(init[k]);
          assert langs[k] == init[k];
        } else {
          assert w == WarningLine(langs[|langs| - 1]);
        }
      }
      forall k | 0 <= k < |langs| && !Supported(langs[k])
        ensures WarningLine(langs[k]) in UnsupportedWarnings(langs)
      {
        if k < |init| {
          assert init[k] == langs[k];
        }
      }
    }
  }

  /** Filtering one more entry keeps it exactly when it is supported. */
  lemma {:induction false} FilterSupportedSnoc(langs: seq<string>, x: string)
    ensures FilterSupported(langs + [x]) == FilterSupported(langs) + (if Supported(x) then [x] else [])
    decreases |langs|
  {
    if langs == [] {
      assert [x][1..] == [];
    } else {
      assert (langs + [x])[1..] == langs[1..] + [x];
      FilterSupportedSnoc(langs[1..], x);
    }
  }

  /** Every entry is either kept by the filter or warned about. */
  lemma {:induction false} WarningsCount(langs: seq<string>)
    ensures |UnsupportedWarnings(langs)| + |FilterSupported(langs)| == |langs|
    decreases |langs|
  {
    if langs != [] {
      var init := langs[..|langs| - 1];
      WarningsCount(init);
      assert langs == init + [langs[|langs| - 1]];
      FilterSupportedSnoc(init, langs[|langs| - 1]);
    }
  }

  /** A line that starts like an unsupported-language warning. */
  predicate WarningMarked(w: string)
  {
    |w| > 3 && w[0] == '⚠' && w[3] == 'W'
  }

  /** A warning starts with its mark. */
  lemma WarningLineMarked(lang: string)
    ensures WarningMarked(WarningLine(lang))
  {
    var head := "⚠️ Warning:";
    assert WarningLine(lang)[0] == head[0] && WarningLine(lang)[3] == head[3];
  }

  /** Every warning is marked as one. */
  lemma {:induction false} WarningsMarked(langs: seq<string>)
    ensures forall w :: w in UnsupportedWarnings(langs) ==> WarningMarked(w)
    decreases |langs|
  {
    if langs != [] {
      var init, last := langs[..|langs| - 1], langs[|langs| - 1];
      WarningsMarked(init);
      WarningLineMarked(last);
      var u, e := UnsupportedWarnings(init), if Supported(last) then [] else [WarningLine(last)];
      assert UnsupportedWarnings(langs) == u + e;
      forall w | w in u + e
        ensures WarningMarked(w)
      {
        if w !in u {
          assert w in e;
        }
      }
    }
  }

  /** A line that starts with a space, as the bulleted lines do. */
  predicate Indented(x: string)
  {
    |x| > 0 && x[0] == ' '
  }

  /** The notification notice is printed exactly when `Validated` switches
      notifications off. */
  lemma NotifyLinesShape(s: Settings)
    ensures NotifyLines(s) != [] <==> !NotificationsAllOrNone(s)
    ensures NotifyLines(s) != [] ==>
      (NotifyLines(s)[0] == NotifyHeader && Validated(s).sendgrid_api_key.None?
       && Validated(s).sendgrid_from_email.None? && Validated(s).notification_email_to.None?)
  {
  }

  /** Every line after the notice is a "   - Missing <label>" line. */
  lemma NotifyLinesIndented(s: Settings)
    ensures forall k :: 1 <= k < |NotifyLines(s)| ==> Indented(NotifyLines(s)[k])
  {
    var prefix, mn := "   - Missing ", MissingNotification(s);
    BulletedStart(prefix, mn);
    assert prefix[0] == ' ';
    if NotifyLines(s) != [] {
      var b := Bulleted(prefix, mn);
      assert NotifyLines(s) == [NotifyHeader] + b;
      forall k | 1 <= k < |NotifyLines(s)|
        ensures Indented(NotifyLines(s)[k])
      {
        assert NotifyLines(s)[k] == b[k - 1];
      }
    }
  }

  /** Every notification line is the notice or an indented line. */
  lemma NotifyLinesMembers(s: Settings)
    ensures forall x :: x in NotifyLines(s) ==> x == NotifyHeader || Indented(x)
  {
    NotifyLinesShape(s);
    NotifyLinesIndented(s);
    forall x | x in NotifyLines(s)
      ensures x == NotifyHeader || Indented(x)
    {
      var k :| 0 <= k < |NotifyLines(s)| && NotifyLines(s)[k] == x;
    }
  }

  /** With every required setting present: no missing-settings header; the
      debug notice, first, exactly when debug raises the level; the English
      fallback notice exactly when no supported language is left; and the
      notification notice exactly when notifications are switched off. */
  lemma CompleteLines(s: Settings)
    requires MissingRequired(s) == []
    ensures var v := ValidateLines(s);
      && MissingHeader !in v
      && ((s.debug && s.log_level != DEBUG) <==> DebugLine in v)
      && ((s.debug && s.log_level != DEBUG) ==> v[0] == DebugLine)
      && (NoLanguagesLine in v <==> FilterSupported(s.output_languages) == [])
      && (NotifyHeader in v <==> !NotificationsAllOrNone(s))
  {
    var langs := s.output_languages;
    var w := UnsupportedWarnings(langs);
    var n := if FilterSupported(langs) == [] then [NoLanguagesLine] else [];
    var t := NotifyLines(s);
    assert LanguageLines(langs) == w + n;
    assert ValidateLines(s) == DebugLines(s) + (w + n) + t;
    WarningsMarked(langs);
    NotifyLinesShape(s);
    NotifyLinesMembers(s);
    NoticeMarks();
    MarksApart(MissingHeader, DebugLine, NoLanguagesLine, NotifyHeader, DebugLines(s), w, n, t);
  }

  /** The marks that tell the notices apart. */
  lemma NoticeMarks()
    ensures |MissingHeader| > 3 && MissingHeader[0] == '❌'
    ensures |DebugLine| > 3 && DebugLine[0] == '🔍'
    ensures |NoLanguagesLine| > 3 && NoLanguagesLine[0] == '⚠' && NoLanguagesLine[3] == 'N'
    ensures |NotifyHeader| > 3 && NotifyHeader[0] == '⚠' && NotifyHeader[3] == 'I'
  {
    var m, d, n, t := "❌ Missing", "🔍 Debug", "⚠️ No", "⚠️ Incomplete";
    assert MissingHeader[0] == m[0];
    assert DebugLine[0] == d[0];
    assert NoLanguagesLine[0] == n[0] && NoLanguagesLine[3] == n[3];
    assert NotifyHeader[0] == t[0] && NotifyHeader[3] == t[3];
  }

  /** Lines with these marks cannot be mistaken for one another: the
      debug, fallback and notification notices are found exactly in their
      own parts, and the missing-settings header in none. */
  lemma MarksApart(mh: string, dl: string, nl: string, nh: string,
                   d: seq<string>, w: seq<string>, n: seq<string>, t: seq<string>)
    requires |mh| > 3 && mh[0] == '❌' && |dl| > 3 && dl[0] == '🔍'
    requires |nl| > 3 && nl[0] == '⚠' && nl[3] == 'N' && |nh| > 3 && nh[0] == '⚠' && nh[3] == 'I'
    requires d == [] || d == [dl]
    requires forall x :: x in w ==> WarningMarked(x)
    requires n == [] || n == [nl]
    requires forall x :: x in t ==> x == nh || Indented(x)
    ensures var v := d + (w + n) + t;
      && mh !in v
      && (dl in v <==> d != [])
      && (d != [] ==> v[0] == dl)
      && (nl in v <==> n != [])
      && (nh in v <==> nh in t)
  {
    assert mh != dl && mh != nl && mh != nh && dl != nl && dl != nh && nl != nh;
    assert mh !in w && dl !in w && nl !in w && nh !in w;
    assert mh !in t && dl !in t && nl !in t;
  }

  /** The languages after the loop and the fallback: the supported ones,
      or English alone when none is left. */
  function SupportedOrEnglish(langs: seq<string>): seq<string>
  {
    var kept := FilterSupported(langs);
    if kept == [] then ["EN"] else kept
  }

  /** Notifications are switched off unless all or none of the three
      SendGrid settings are given. */
  function NotifyChecked(s: Settings): Settings
  {
    var anySet := Truthy(s.sendgrid_api_key) || Truthy(s.sendgrid_from_email) || Truthy(s.notification_email_to);
    var allSet := Truthy(s.sendgrid_api_key) && Truthy(s.sendgrid_from_email) && Truthy(s.notification_email_to);
    if anySet && !allSet then s.(sendgrid_api_key := None, sendgrid_from_email := None, notification_email_to := None)
    else s
  }

  /** The settings `validate` leaves behind when the required ones are present. */
  function Validated(s: Settings): (r: Settings)
  {
    NotifyChecked(s.(log_level := if s.debug then DEBUG else s.log_level,
                     output_languages := SupportedOrEnglish(s.output_languages)))
  }

  /** What a successful `validate` guarantees: debug means the DEBUG level,
      the languages are a non-empty list of supported names that keeps the
      supported names given, in order, and notifications are all-or-none. */
  lemma ValidatedGuarantees(s: Settings)
    ensures s.debug ==> Validated(s).log_level == DEBUG
    ensures !s.debug ==> Validated(s).log_level == s.log_level
    ensures |Validated(s).output_languages| >= 1
    ensures forall k :: 0 <= k < |Validated(s).output_languages| ==> Supported(Validated(s).output_languages[k])
    ensures FilterSupported(s.output_languages) != [] ==>
      Validated(s).output_languages == FilterSupported(s.output_languages)
    ensures NotificationsAllOrNone(Validated(s))
    ensures Validated(s).target_repo_url == s.target_repo_url && Validated(s).output_dir == s.output_dir
  {
  }

  /** Languages that are all supported pass through unchanged. */
  lemma {:induction false} FilterSupportedKeeps(langs: seq<string>)
    requires AllSupported(langs)
    ensures FilterSupported(langs) == langs
    decreases |langs|
  {
    if langs != [] {
      FilterSupportedKeeps(langs[1..]);
      assert langs == [langs[0]] + langs[1..];
    }
  }

  /** Every language of the list is supported. */
  predicate AllSupported(langs: seq<string>)
  {
    forall k :: 0 <= k < |langs| ==> Supported(langs[k])
  }

  /** A prefix one longer is all supported when the shorter one and the
      next entry are. */
  lemma AllSupportedSnoc(langs: seq<string>, i: nat)
    requires i < |langs|
    ensures AllSupported(langs[..i + 1]) <==> AllSupported(langs[..i]) && Supported(langs[i])
  {
    assert langs[..i + 1] == langs[..i] + [langs[i]];
  }

  /** Every kept language was in the input: the filter only removes. */
  lemma {:induction false} FilterSupportedSubset(langs: seq<string>)
    ensures forall x :: x in FilterSupported(langs) ==> x in langs
    decreases |langs|
  {
    if langs != [] {
      FilterSupportedSubset(langs[1..]);
    }
  }

  /** `AppConfig`: the dataclass whose `validate` updates its own fields. */
  /** The settings once the language loop has looked at the first `i`
      entries of `s0`'s list: the list is re-filtered from the first
      unsupported entry on, and nothing else changes. */
  predicate LanguagesScanned(s0: Settings, s: Settings, i: nat)
  {
    var original := s0.output_languages;
    && i <= |original|
    && s == s0.(output_languages := if AllSupported(original[..i]) then original else FilterSupported(original))
  }

  /** One more entry looked at: an unsupported one re-filters the list. */
  lemma LanguagesScannedStep(s0: Settings, s: Settings, i: nat)
    requires LanguagesScanned(s0, s, i) && i < |s0.output_languages|
    ensures var lang := s0.output_languages[i];
      LanguagesScanned(s0, if Supported(lang) then s else s.(output_languages := FilterSupported(s.output_languages)), i + 1)
  {
    AllSupportedSnoc(s0.output_languages, i);
    FilterSupportedIdempotent(s0.output_languages);
  }

  /** After the whole list the languages are the filtered ones. */
  lemma LanguagesScannedAll(s0: Settings, s: Settings)
    requires LanguagesScanned(s0, s, |s0.output_languages|)
    ensures s == s0.(output_languages := FilterSupported(s0.output_languages))
  {
    var original := s0.output_languages;
    assert original[..|original|] == original;
    if AllSupported(original) {
      FilterSupportedKeeps(original);
    }
  }

  class AppConfig {
    var settings: Settings

    constructor (s: Settings)
      ensures settings == s
    {
      settings := s;
    }

    /** `validate`: false, with nothing changed, when a required setting is
        missing; otherwise true with the adjusted settings. The lines it
        echoes go to `console`. */
    method Validate(console: Console) returns (ok: bool)
      modifies this, console
      ensures ok <==> MissingRequired(old(settings)) == []
      ensures ok ==> settings == Validated(old(settings))
      ensures !ok ==> settings == old(settings)
      ensures console.lines == old(console.lines) + ValidateLines(old(settings))
    {
      var missing := MissingRequired(settings);
      ghost var s0, before := settings, console.lines;
      if missing != [] {
        assert ValidateLines(s0) == [MissingHeader] + Bulleted("   - ", missing);
        console.Echo(MissingHeader);
        EchoAll(console, "   - ", missing);
        AppendedPair(before, [MissingHeader], Bulleted("   - ", missing));
        return false;
      }
      assert ValidateLines(s0) == DebugLines(s0) + LanguageLines(s0.output_languages) + NotifyLines(s0);
      ghost var d, l, n := DebugLines(s0), LanguageLines(s0.output_languages), NotifyLines(s0);
      RaiseDebug(console);
      assert console.lines == before + d;
      CheckLanguages(console);
      assert console.lines == before + d + l;
      NotifyLinesSame(settings, s0);
      CheckNotifications(console);
      assert console.lines == before + d + l + n;
      Appended(before, d, l, n);
      return true;
    }

    /** The debug step of `validate`. */
    method RaiseDebug(console: Console)
      modifies this, console
      ensures settings == old(settings).(log_level := if old(settings).debug then DEBUG else old(settings).log_level)
      ensures console.lines == old(console.lines) + DebugLines(old(settings))
    {
      if settings.debug && settings.log_level != DEBUG {
        settings := settings.(log_level := DEBUG);
        console.Echo(DebugLine);
      }
    }

    /** The language step of `validate`: one warning per unsupported entry,
        then English as the fallback when nothing is left. */
    method CheckLanguages(console: Console)
      modifies this, console
      ensures settings == old(settings).(output_languages := SupportedOrEnglish(old(settings).output_languages))
      ensures console.lines == old(console.lines) + LanguageLines(old(settings).output_languages)
    {
      ghost var original := settings.output_languages;
      WarnUnsupported(console);
      ghost var warned := console.lines;
      if settings.output_languages == [] {
        settings := settings.(output_languages := ["EN"]);
        console.Echo(NoLanguagesLine);
      }
      assert console.lines == warned + (if FilterSupported(original) == [] then [NoLanguagesLine] else []);
    }

    /** The loop of the language step: it runs over the original list, and
        each unsupported entry warns and re-filters the current one. */
    method WarnUnsupported(console: Console)
      modifies this, console
      ensures settings == old(settings).(output_languages := FilterSupported(old(settings).output_languages))
      ensures console.lines == old(console.lines) + UnsupportedWarnings(old(settings).output_languages)
    {
      var original := settings.output_languages;
      for i := 0 to |original|
        invariant LanguagesScanned(old(settings), settings, i)
        invariant console.lines == old(console.lines) + UnsupportedWarnings(original[..i])
      {
        LanguagesScannedStep(old(settings), settings, i);
        UnsupportedWarningsSnoc(original, i);
        CheckLanguage(console, original[i]);
      }
      assert original[..|original|] == original;
      LanguagesScannedAll(old(settings), settings);
    }

    /** One turn of the loop: an unsupported entry is warned about and
        re-filters the current list. */
    method CheckLanguage(console: Console, lang: string)
      modifies this, console
      ensures settings == if Supported(lang) then old(settings)
                          else old(settings).(output_languages := FilterSupported(old(settings).output_languages))
      ensures console.lines == old(console.lines) + (if Supported(lang) then [] else [WarningLine(lang)])
    {
      if !Supported(lang) {
        console.Echo(WarningLine(lang));
        settings := settings.(output_languages := FilterSupported(settings.output_languages));
      }
    }

    /** The notification step of `validate`. */
    method CheckNotifications(console: Console)
      modifies this, console
      ensures settings == NotifyChecked(old(settings))
      ensures console.lines == old(console.lines) + NotifyLines(old(settings))
    {
      var s := settings;
      if Truthy(s.sendgrid_api_key) || Truthy(s.sendgrid_from_email) || Truthy(s.notification_email_to) {
        var missingNotification := MissingNotification(s);
        if missingNotification != [] {
          console.Echo(NotifyHeader);
          EchoAll(console, "   - Missing ", missingNotification);
          settings := settings.(sendgrid_api_key := None, sendgrid_from_email := None, notification_email_to := None);
        }
      }
    }
  }

  lemma {:induction false} FilterSupportedIdempotent(langs: seq<string>)
    ensures FilterSupported(FilterSupported(langs)) == FilterSupported(langs)
  {
    FilterSupportedKeeps(FilterSupported(langs));
  }
}
