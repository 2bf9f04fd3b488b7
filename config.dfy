/**
  The bot options builder: validated configuration fields (operating system, browser,
  download folder, Chromium executable) and the assembly of the browser options
  record from the argument list, the preference map and the extension list.
*/
module Config {
  import opened Wrappers
  import opened Text
  import opened Files
  import opened Profiles

  // ---------------------------------------------------------------------------
  // Browser kinds and errors

  datatype Browser = Firefox | Chrome | Chromium | UndetectedChrome | Edge
  {
    /** The lower-case name the browser setter stores. */
    function Name(): string
    {
      match this
      case Firefox => "firefox"
      case Chrome => "chrome"
      case Chromium => "chromium"
      case UndetectedChrome => "undetected-chrome"
      case Edge => "edge"
    }

    /** Chrome, Chromium and undetected Chrome share the Chromium argument set. */
    predicate ChromeFamily()
    {
      Chrome? || Chromium? || UndetectedChrome?
    }

    /** Every browser but Firefox is given the extension list. */
    predicate TakesExtensions()
    {
      !Firefox?
    }
  }

  const SupportedBrowsers: set<string> := {"firefox", "chrome", "chromium", "undetected-chrome", "edge"}

  const BrowserNotSupportedDefault := "The browser is not supported."
  const ChromiumPathNotInformedMessage := "The Chromium executable must be informed."

  /** The message `BrowserNotSupported` carries: the given text, then the browser name if one is given. */
  function BrowserNotSupportedMessage(message: string, browser: Option<string>): (r: string)
    ensures message <= r
    ensures browser.None? ==> r == message
    ensures browser.Some? ==> r[|message|..] == " " + browser.value
  {
    if browser.None? then message else message + " " + browser.value
  }

  /** The exceptions constructing bot options can end with. */
  datatype BotError =
    | BrowserNotSupported(browser: Option<string>)
    | ChromiumPathNotInformed
    | Profile(profileCause: ProfileError)
    | FileSystem(fsCause: FsError)
  {
    function Message(): string
      requires BrowserNotSupported? || ChromiumPathNotInformed?
    {
      if BrowserNotSupported? then BrowserNotSupportedMessage(BrowserNotSupportedDefault, browser)
      else ChromiumPathNotInformedMessage
    }
  }

  // ---------------------------------------------------------------------------
  // Field validators and normalisers

  /** The `browser` setter: accept the five names in any letter case, keep the lower-case form. */
  function ParseBrowser(name: string): (r: Result<Browser, BotError>)
    ensures r.Ok? <==> Lower(name) in SupportedBrowsers
    ensures r.Ok? ==> r.value.Name() == Lower(name)
    ensures r.Err? ==> r.error == BrowserNotSupported(Some(name))
  {
    var lower := Lower(name);
    if lower == "firefox" then Ok(Firefox)
    else if lower == "chrome" then Ok(Chrome)
    else if lower == "chromium" then Ok(Chromium)
    else if lower == "undetected-chrome" then Ok(UndetectedChrome)
    else if lower == "edge" then Ok(Edge)
    else Err(BrowserNotSupported(Some(name)))
  }

  /** A refused browser name raises `BrowserNotSupported` whose message ends with that name as given. */
  lemma RefusalMessage(name: string)
    requires Lower(name) !in SupportedBrowsers
    ensures ParseBrowser(name).Err?
    ensures ParseBrowser(name).error.Message() == BrowserNotSupportedDefault + " " + name
  {
  }

  /** Every browser is accepted under its own name. */
  lemma ParseBrowserName(b: Browser)
    ensures ParseBrowser(b.Name()) == Ok(b)
  {
    LowerOfLower(b.Name());
  }

  const KnownSystems: set<string> := {"windows", "linux", "darwin"}

  /** The `op_sys` setter: unknown or missing systems are Windows, Darwin is macOS, all lower-case. */
  function NormalizeOs(system: Option<string>): (r: string)
    ensures r in {"windows", "linux", "macos"}
    ensures r == "macos" <==> system.Some? && Lower(system.value) == "darwin"
    ensures r == "linux" <==> system.Some? && Lower(system.value) == "linux"
  {
    LowerOfLower("windows");
    LowerOfLower("macos");
    var named := if system.None? || Lower(system.value) !in KnownSystems then "windows" else system.value;
    var renamed := if Lower(named) == "darwin" then "macos" else named;
    Lower(renamed)
  }

  /** The `download_folder` setter's path: the given folder, or `.downloads` inside the profile. */
  function ResolveDownloadFolder(profile: Path, given: Option<Path>): (r: Path)
    ensures given.Some? ==> r == given.value
    ensures given.None? ==> r == profile + "\\.downloads"
    ensures given.None? && profile != "" ==> Within(r, profile) && Relative(r, profile) == ".downloads"
  {
    if given.None? then
      var r := profile + "\\.downloads";
      assert r == Child(profile, ".downloads");
      if profile == "" then r else RelativeChild(profile, ".downloads"); r
    else given.value
  }

  /** The `download_folder` setter's `os.makedirs`, with `FileExistsError` ignored. */
  function EnsuredFolder(m: Entries, folder: Path): Result<Entries, FsError>
  {
    match MakeDirsSpec(m, folder)
    case Ok(m') => Ok(m')
    case Err(FileExists(_)) => Ok(m)
    case Err(e) => Err(e)
  }

  /** After the download folder is ensured it exists; an existing one is left alone; only a bad path fails. */
  lemma EnsuredFolderExists(m: Entries, folder: Path)
    requires WellFormed(m)
    ensures var r := EnsuredFolder(m, folder);
      && (r.Ok? ==> folder in r.value && WellFormed(r.value))
      && (r.Ok? ==> forall k :: k in m ==> k in r.value && r.value[k] == m[k])
      && (folder in m ==> r == Ok(m))
      && (r.Err? <==> folder !in m && (folder == "" || HasFileAncestor(m, folder)))
  {
    if MakeDirsSpec(m, folder).Ok? {
      MakeDirsEffect(m, folder);
      MakeDirsWellFormed(m, folder);
    }
  }

  /** The `chromium_executable` setter: Chromium needs one; otherwise the value is kept as given. */
  function CheckChromiumExecutable(browser: Browser, executable: Option<Path>): (r: Result<Option<Path>, BotError>)
    ensures r.Err? <==> browser == Chromium && executable.None?
    ensures r.Err? ==> r.error == ChromiumPathNotInformed
    ensures r.Ok? ==> r.value == executable
  {
    if browser == Chromium && executable.None? then Err(ChromiumPathNotInformed) else Ok(executable)
  }

  // ---------------------------------------------------------------------------
  // Arguments, preferences and the options record

  /** A preference value: the preference dictionary holds booleans, integers, strings and a list of names. */
  datatype PrefValue = BoolPref(flag: bool) | IntPref(number: int) | StringPref(text: string) | ListPref(names: seq<string>)

  type Prefs = map<string, PrefValue>

  /** The sixteen arguments every browser is started with. */
  function BaseArgs(userAgent: string, profile: Path): seq<string>
  {
    [ "--user-agent=" + userAgent,
      "--user-data-dir=" + profile,
      "--headless",
      "--no-sandbox",
      "--mute-audio",
      "--enable-webgl",
      "--no-first-run",
      "--lang=en-US,en;q=0.9",
      "--password-store=basic",
      "--window-size=1920,1080",
      "--no-default-browser-check",
      "--ignore-certificate-errors",
      "--allow-running-insecure-content",
      "--disable-gpu",
      "--disable-infobars",
      "--disable-dev-shm-usage" ]
  }

  /** The nineteen flags `define_options` appends to the arguments for the Chrome family. */
  const ChromeFlags: seq<string> :=
    [ "--no-xshm",
      "--no-zygote",
      "--kiosk-printing",
      "--enable-low-end-device-mode",
      "--disable-logging",
      "--disable-breakpad",
      "--disable-canvas-aa",
      "--disable-gpu-sandbox",
      "--disable-web-security",
      "--disable-notifications",
      "--disable-popup-blocking",
      "--disable-2d-canvas-clip-aa",
      "--disable-software-rasterizer",
      "--disable-gl-drawing-for-tests",
      "--disable-renderer-backgrounding",
      "--disable-background-timer-throttling",
      "--disable-backgrounding-occluded-windows",
      "--disable-blink-features=AutomationControlled",
      "--disable-features=IsolateOrigins,site-per-process" ]

  const DownloadDirKey := "browser.download.dir"
  const DefaultDirectoryKey := "download.default_directory"
  const SaveFileDirectoryKey := "savefile.default_directory"
  const PluginsDisabledKey := "plugins.plugins_disabled"
  const SaveToDiskKey := "browser.helperApps.neverAsk.saveToDisk"

  /** The print-preview settings: save as PDF. */
  const PrintPreviewState: string := "{\"recentDestinations\":[{\"id\":\"Save as PDF\",\"origin\":\"local\"}],\"selectedDestinationId\":\"Save as PDF\",\"version\":2}"

  /** The eleven preferences that do not depend on the download folder. */
  const FixedPrefs: Prefs :=
    map[
      "pdfjs.disabled" := BoolPref(true),
      "browser.download.folderList" := IntPref(2),
      "download.prompt_for_download" := BoolPref(false),
      "browser.download.panel.shown" := BoolPref(false),
      "webdriver_enable_native_events" := BoolPref(false),
      "browser.helperApps.alwaysAsk.force" := BoolPref(false),
      "browser.download.manager.useWindow" := BoolPref(false),
      "browser.download.manager.showWhenStarting" := BoolPref(false),
      "browser.helperApps.neverAsk.openFile" := StringPref("application/pdf;"),
      SaveToDiskKey := StringPref("application/pdf;"),
      "printing.print_preview_sticky_settings.appState" := StringPref(PrintPreviewState)
    ]

  /** The fourteen preferences set up before any options are built. */
  function InitialPrefs(downloadFolder: Path): Prefs
  {
    FixedPrefs[DownloadDirKey := StringPref(downloadFolder)]
              [DefaultDirectoryKey := StringPref(downloadFolder)]
              [SaveFileDirectoryKey := StringPref(downloadFolder)]
  }

  /** The two preferences `define_options` overwrites for the Chrome family. */
  const ChromePrefOverrides: Prefs :=
    map[
      PluginsDisabledKey := ListPref(["Chrome PDF Viewer", "Adobe Acrobat"]),
      SaveToDiskKey := StringPref("application/octet-stream;application/xml;")
    ]

  /** The options object `define_options` returns, reduced to what it records. */
  datatype Options = Options(
    browser: Browser,                   // which options class was instantiated
    arguments: seq<string>,             // `add_argument` calls, in order
    preferences: Prefs,                 // Firefox `set_preference`
    capabilities: Prefs,                // Edge `set_capability`
    experimentalPrefs: Option<Prefs>,   // `add_experimental_option('prefs', ...)`
    extensionFiles: seq<string>,        // `add_extension` calls, in order
    binaryLocation: Option<Path>)       // Chromium `binary_location`

  /** A newly instantiated options object. */
  function Blank(b: Browser): Options
  {
    Options(b, [], map[], map[], None, [], None)
  }

  /** The argument list after `define_options`: the Chrome family gets the nineteen flags appended. */
  function ExtendedArgs(b: Browser, args: seq<string>): seq<string>
  {
    if b.ChromeFamily() then args + ChromeFlags else args
  }

  /** The preferences after `define_options`: the Chrome family gets the two overrides. */
  function UpdatedPrefs(b: Browser, prefs: Prefs): Prefs
  {
    if b.ChromeFamily() then prefs + ChromePrefOverrides else prefs
  }

  /** A packed extension, handed to `add_extension`. */
  predicate IsPacked(extension: string)
  {
    EndsWith(extension, ".crx")
  }

  /** The packed extensions, in order. */
  function Packed(extensions: seq<string>): seq<string>
  {
    if extensions == [] then []
    else
      var n := |extensions| - 1;
      Packed(extensions[..n]) + (if IsPacked(extensions[n]) then [extensions[n]] else [])
  }

  /** The unpacked extensions, in order. */
  function Unpacked(extensions: seq<string>): seq<string>
  {
    if extensions == [] then []
    else
      var n := |extensions| - 1;
      Unpacked(extensions[..n]) + (if IsPacked(extensions[n]) then [] else [extensions[n]])
  }

  /** One more extension goes to the packed or the unpacked list, at its end. */
  lemma SplitSnoc(extensions: seq<string>, e: string)
    ensures Packed(extensions + [e]) == Packed(extensions) + (if IsPacked(e) then [e] else [])
    ensures Unpacked(extensions + [e]) == Unpacked(extensions) + (if IsPacked(e) then [] else [e])
  {
    assert (extensions + [e])[..|extensions|] == extensions;
  }

  const LoadPrefix := "--load-extension="

  /**
    The entries the `--load-extension=` text collects: the Chrome family first adds every
    extension, then every browser but Firefox adds the unpacked ones once more.
  */
  function LoadList(b: Browser, extensions: seq<string>): seq<string>
  {
    (if b.ChromeFamily() then extensions else []) + (if b.TakesExtensions() then Unpacked(extensions) else [])
  }

  /** The `--load-extension=` text with a comma after each entry. */
  function LoadText(b: Browser, extensions: seq<string>): (r: string)
    ensures 0 < |r|
  {
    LoadPrefix + Trail(LoadList(b, extensions))
  }

  /** The argument a finished load text gives: the text minus its last character, when its second `=`-field is non-empty. */
  function FlagOf(text: string): (r: seq<string>)
    requires 0 < |text|
    ensures |r| <= 1
  {
    if SecondField(text, '=') != "" then [text[..|text| - 1]] else []
  }

  /** The final argument every browser but Firefox may get. */
  function LoadFlag(b: Browser, extensions: seq<string>): seq<string>
  {
    if b.TakesExtensions() then FlagOf(LoadText(b, extensions)) else []
  }

  /** What `define_options` returns, given the browser, the arguments, preferences and extensions, and the executable. */
  function OptionsFor(b: Browser, args: seq<string>, prefs: Prefs, extensions: seq<string>, executable: Option<Path>): Options
  {
    Options(
      b,
      ExtendedArgs(b, args) + LoadFlag(b, extensions),
      if b == Firefox then prefs else map[],
      if b == Edge then prefs else map[],
      if b.ChromeFamily() then Some(UpdatedPrefs(b, prefs)) else None,
      if b.TakesExtensions() then Packed(extensions) else [],
      if b == Chromium then executable else None)
  }

  // ---------------------------------------------------------------------------
  // Properties of the options

  /** The arguments given come first and in order; the Chrome family has its nineteen flags next; the load flag is last. */
  lemma DefinedArguments(b: Browser, args: seq<string>, prefs: Prefs, extensions: seq<string>, executable: Option<Path>)
    ensures var a := OptionsFor(b, args, prefs, extensions, executable).arguments;
      var flag := LoadFlag(b, extensions);
      && |flag| <= 1
      && |args| <= |a| && a[..|args|] == args
      && (b.ChromeFamily() ==> a[|args|..] == ChromeFlags + flag)
      && (b == Edge ==> a[|args|..] == flag)
      && (b == Firefox ==> a == args)
  {
    var a := OptionsFor(b, args, prefs, extensions, executable).arguments;
    var flag := LoadFlag(b, extensions);
    if b.ChromeFamily() {
      assert a == args + (ChromeFlags + flag);
    } else {
      assert a == args + flag;
    }
  }

  /** The sixteen base arguments start with the user agent and the profile folder. */
  lemma BaseArgsFirst(userAgent: string, profile: Path)
    ensures var base := BaseArgs(userAgent, profile);
      && |base| == 16
      && base[0] == "--user-agent=" + userAgent
      && base[1] == "--user-data-dir=" + profile
  {
  }

  /**
    Whether the `--load-extension=` argument is added: exactly when the list it collects is
    non-empty and its first entry does not start with `=`. It is then the comma-joined list.
  */
  lemma LoadFlagEmitted(b: Browser, extensions: seq<string>)
    requires b.TakesExtensions()
    ensures var l := LoadList(b, extensions);
      && (LoadFlag(b, extensions) != [] <==> l != [] && (l[0] == "" || l[0][0] != '='))
      && (LoadFlag(b, extensions) != [] ==> LoadFlag(b, extensions) == [LoadPrefix + Join(l)])
  {
    LoadTextFields(LoadList(b, extensions));
  }

  /** The second `=`-field of a load text and its text minus the last character, for any list. */
  lemma LoadTextFields(l: seq<string>)
    ensures var text := LoadPrefix + Trail(l);
      && (SecondField(text, '=') != "" <==> l != [] && (l[0] == "" || l[0][0] != '='))
      && (l != [] ==> text[..|text| - 1] == LoadPrefix + Join(l))
  {
    var t := Trail(l);
    PrefixField(t);
    UpToFirstEmpty(t, '=');
    TrailEmpty(l);
    if l != [] {
      TrailStartsWithFirst(l);
      assert t[0] == (l[0] + ",")[0];
      TrailIsJoinPlusComma(l);
      var text := LoadPrefix + t;
      assert text == LoadPrefix + Join(l) + ",";
      assert text[..|text| - 1] == LoadPrefix + Join(l);
    }
  }

  /** The `=` closing the prefix is the first one, so the second field is what follows it up to the next `=`. */
  lemma PrefixField(t: string)
    ensures SecondField(LoadPrefix + t, '=') == UpToFirst(t, '=')
  {
    var name := "--load-extension";
    assert LoadPrefix + t == name + ['='] + t;
    assert '=' !in name;
    AfterFirstPast(name, '=', t);
  }

  /** Splitting the extensions into packed and unpacked ones loses and duplicates nothing. */
  lemma {:induction false} SplitCounts(extensions: seq<string>, e: string)
    ensures multiset(Packed(extensions))[e] == if IsPacked(e) then multiset(extensions)[e] else 0
    ensures multiset(Unpacked(extensions))[e] == if IsPacked(e) then 0 else multiset(extensions)[e]
  {
    if extensions != [] {
      var n := |extensions| - 1;
      assert extensions == extensions[..n] + [extensions[n]];
      SplitCounts(extensions[..n], e);
    }
  }

  /**
    How often each extension is named in the `--load-extension=` text: the Chrome family
    names a packed extension once and an unpacked one twice; Edge names only the unpacked ones, once.
  */
  lemma LoadListCounts(b: Browser, extensions: seq<string>, e: string)
    requires b.TakesExtensions()
    ensures b.ChromeFamily() ==> multiset(LoadList(b, extensions))[e] == (if IsPacked(e) then 1 else 2) * multiset(extensions)[e]
    ensures b == Edge ==> multiset(LoadList(b, extensions))[e] == (if IsPacked(e) then 0 else 1) * multiset(extensions)[e]
  {
    SplitCounts(extensions, e);
  }

  /** Packed extensions are handed over as files by every browser but Firefox, which ignores the extension list. */
  lemma DefinedExtensions(b: Browser, args: seq<string>, prefs: Prefs, extensions: seq<string>, executable: Option<Path>)
    ensures var o := OptionsFor(b, args, prefs, extensions, executable);
      && (b.TakesExtensions() ==> forall e :: e in o.extensionFiles <==> e in extensions && IsPacked(e))
      && (b.TakesExtensions() ==> forall e :: multiset(o.extensionFiles)[e] == if IsPacked(e) then multiset(extensions)[e] else 0)
      && (b == Firefox ==> o == OptionsFor(b, args, prefs, [], executable) && o.extensionFiles == [])
  {
    forall e {
      SplitCounts(extensions, e);
    }
  }

  /**
    Where the preferences go: Firefox preferences, Edge capabilities, or for the Chrome
    family the experimental `prefs` option with the two overrides applied and nothing else changed.
  */
  lemma DefinedPreferences(b: Browser, args: seq<string>, prefs: Prefs, extensions: seq<string>, executable: Option<Path>)
    ensures var o := OptionsFor(b, args, prefs, extensions, executable);
      && (b == Firefox ==> o.preferences == prefs && o.capabilities == map[] && o.experimentalPrefs == None)
      && (b == Edge ==> o.capabilities == prefs && o.preferences == map[] && o.experimentalPrefs == None)
      && (b.ChromeFamily() ==>
        && o.preferences == map[] && o.capabilities == map[] && o.experimentalPrefs.Some?
        && var p := o.experimentalPrefs.value;
        && p.Keys == prefs.Keys + {PluginsDisabledKey, SaveToDiskKey}
        && p[PluginsDisabledKey] == ListPref(["Chrome PDF Viewer", "Adobe Acrobat"])
        && p[SaveToDiskKey] == StringPref("application/octet-stream;application/xml;")
        && forall k :: k in prefs && k != PluginsDisabledKey && k != SaveToDiskKey ==> p[k] == prefs[k])
  {
    if b.ChromeFamily() {
      OverriddenPrefs(prefs);
    }
  }

  /** The Chrome-family overrides add or replace their two keys and keep every other preference. */
  lemma OverriddenPrefs(prefs: Prefs)
    ensures var p := prefs + ChromePrefOverrides;
      && p.Keys == prefs.Keys + {PluginsDisabledKey, SaveToDiskKey}
      && p[PluginsDisabledKey] == ListPref(["Chrome PDF Viewer", "Adobe Acrobat"])
      && p[SaveToDiskKey] == StringPref("application/octet-stream;application/xml;")
      && forall k :: k in prefs && k != PluginsDisabledKey && k != SaveToDiskKey ==> p[k] == prefs[k]
  {
  }

  /** Only Chromium options carry a binary location, and it is the executable given. */
  lemma DefinedBinaryLocation(b: Browser, args: seq<string>, prefs: Prefs, extensions: seq<string>, executable: Option<Path>)
    ensures var o := OptionsFor(b, args, prefs, extensions, executable);
      o.binaryLocation.Some? <==> b == Chromium && executable.Some?
    ensures b == Chromium ==> OptionsFor(b, args, prefs, extensions, executable).binaryLocation == executable
  {
  }

  /**
    Building the options a second time appends the nineteen flags again while the
    preference overrides have no further effect.
  */
  lemma DefineOptionsTwice(b: Browser, args: seq<string>, prefs: Prefs, extensions: seq<string>, executable: Option<Path>)
    ensures UpdatedPrefs(b, UpdatedPrefs(b, prefs)) == UpdatedPrefs(b, prefs)
    ensures b.ChromeFamily() ==> ExtendedArgs(b, ExtendedArgs(b, args)) == args + ChromeFlags + ChromeFlags
    ensures !b.ChromeFamily() ==> ExtendedArgs(b, ExtendedArgs(b, args)) == args
    ensures var second := OptionsFor(b, ExtendedArgs(b, args), UpdatedPrefs(b, prefs), extensions, executable);
      b.ChromeFamily() ==> second.arguments[..|args| + 38] == args + ChromeFlags + ChromeFlags
  {
    if b.ChromeFamily() {
      var second := OptionsFor(b, ExtendedArgs(b, args), UpdatedPrefs(b, prefs), extensions, executable);
      assert second.arguments == args + ChromeFlags + ChromeFlags + LoadFlag(b, extensions);
    }
  }

  // ---------------------------------------------------------------------------
  // Construction

  /** The keyword arguments of `BotOptions`; `None` stands for a keyword that is left out. */
  datatype Settings = Settings(
    copyProfile: bool,
    numBot: Option<int>,
    profile: Option<Path>,
    browser: Option<string>,
    downloadFolder: Option<Path>,
    extensions: seq<string>,
    chromiumExecutable: Option<Path>,
    options: Option<Options>)

  /** The browser name asked for: `chrome` unless given. */
  function BrowserName(s: Settings): string
  {
    if s.browser.Some? then s.browser.value else "chrome"
  }

  /** Every field of a constructed `BotOptions`, the inherited profile fields included. */
  datatype BotState = BotState(
    copyProfile: bool,
    numBot: BotNumber,
    profile: Path,
    opSys: string,
    browser: Browser,
    userAgent: string,
    args: seq<string>,
    downloadFolder: Path,
    prefs: Prefs,
    extensions: seq<string>,
    chromiumExecutable: Option<Path>,
    options: Options)

  /** What constructing `BotOptions` ends with: the object's fields or an error, and the filesystem after it. */
  datatype Built = Built(result: Result<BotState, BotError>, entries: Entries)

  /** The inherited part of construction: the profile is stored as given or made by `define_profile`. */
  function ProfileStage(m: Entries, cwd: Path, s: Settings): Effect<Path>
  {
    if RunsDefineProfile(s.profile, s.copyProfile) then
      DefinedProfile(m, cwd, NormalizeNumBot(s.numBot), s.copyProfile, s.profile)
    else Effect(Ok(s.profile.value), m)
  }

  /** The inherited part keeps the filesystem well formed; a profile it makes is a directory on disk. */
  lemma ProfileStageFresh(m: Entries, cwd: Path, s: Settings)
    requires WellFormed(m)
    ensures var stage := ProfileStage(m, cwd, s);
      && WellFormed(stage.entries)
      && (!RunsDefineProfile(s.profile, s.copyProfile) ==> stage == Effect(Ok(s.profile.value), m))
      && (RunsDefineProfile(s.profile, s.copyProfile) && stage.result.Ok? ==>
          stage.result.value in stage.entries && stage.entries[stage.result.value] == Dir)
  {
    if RunsDefineProfile(s.profile, s.copyProfile) {
      DefinedProfileFresh(m, cwd, NormalizeNumBot(s.numBot), s.copyProfile, s.profile);
    }
  }

  /**
    Constructing `BotOptions` once the inherited profile stage has ended, in the order
    its fields are set: operating system, browser, user agent, arguments, download
    folder, preferences, extensions, Chromium executable, options. The platform name and
    the random user agent are inputs.
  */
  function Construct(stage: Effect<Path>, system: string, userAgent: string, s: Settings): Built
  {
    if stage.result.Err? then Built(Err(Profile(stage.result.error)), stage.entries)
    else
      match ParseBrowser(BrowserName(s))
      case Err(e) => Built(Err(e), stage.entries)
      case Ok(b) => Equipped(stage.entries, stage.result.value, b, NormalizeOs(Some(system)), userAgent, s)
  }

  /** Construction from the download folder on, once the browser has been accepted. */
  function Equipped(m: Entries, profile: Path, b: Browser, opSys: string, userAgent: string, s: Settings): Built
  {
    var folder := ResolveDownloadFolder(profile, s.downloadFolder);
    match EnsuredFolder(m, folder)
    case Err(e) => Built(Err(FileSystem(e)), m)
    case Ok(m2) => Built(Completed(s, profile, b, folder, opSys, userAgent, BaseArgs(userAgent, profile), InitialPrefs(folder)), m2)
  }

  /**
    Construction from the Chromium executable on, once the download folder has been made
    and the arguments and preferences have their initial values.
  */
  function Completed(s: Settings, profile: Path, b: Browser, folder: Path, opSys: string, userAgent: string,
                     args: seq<string>, prefs: Prefs): Result<BotState, BotError>
  {
    if CheckChromiumExecutable(b, s.chromiumExecutable).Err? then Err(ChromiumPathNotInformed)
    else Ok(Ready(s, profile, b, folder, opSys, userAgent, args, prefs))
  }

  /** The fields once every check has passed: options given are kept, otherwise they are built. */
  function Ready(s: Settings, profile: Path, b: Browser, folder: Path, opSys: string, userAgent: string,
                 args: seq<string>, prefs: Prefs): BotState
  {
    var kept := s.options.Some?;
    BotState(
      s.copyProfile, NormalizeNumBot(s.numBot), profile, opSys, b, userAgent,
      if kept then args else ExtendedArgs(b, args),
      folder,
      if kept then prefs else UpdatedPrefs(b, prefs),
      s.extensions, s.chromiumExecutable,
      if kept then s.options.value else OptionsFor(b, args, prefs, s.extensions, s.chromiumExecutable))
  }

  /**
    The fields of a ready object come from the settings, the checks and the inputs; the
    arguments keep their first entries and the overrides keep every other preference.
  */
  lemma ReadyFields(s: Settings, profile: Path, b: Browser, folder: Path, opSys: string, userAgent: string,
                    args: seq<string>, prefs: Prefs)
    ensures var st := Ready(s, profile, b, folder, opSys, userAgent, args, prefs);
      && st.profile == profile && st.browser == b && st.downloadFolder == folder && st.opSys == opSys
      && st.chromiumExecutable == s.chromiumExecutable
      && |args| <= |st.args| && st.args[..|args|] == args
      && st.prefs == (if s.options.Some? then prefs else UpdatedPrefs(b, prefs))
      && (s.options.Some? ==> st.options == s.options.value)
      && (s.options.None? ==> st.options == OptionsFor(b, args, prefs, s.extensions, s.chromiumExecutable))
  {
  }

  /**
    A constructed `BotOptions`: every check passed, the filesystem stays well formed, the
    download folder exists, and the fields are the ready fields for the checked browser and
    the resolved download folder.
  */
  lemma ConstructedState(stage: Effect<Path>, system: string, userAgent: string, s: Settings)
    requires WellFormed(stage.entries)
    ensures WellFormed(Construct(stage, system, userAgent, s).entries)
    ensures var c := Construct(stage, system, userAgent, s);
      forall k :: k in stage.entries ==> k in c.entries && c.entries[k] == stage.entries[k]
    ensures var c := Construct(stage, system, userAgent, s);
      c.result.Ok? ==>
        && stage.result.Ok? && ParseBrowser(BrowserName(s)).Ok?
        && var profile := stage.result.value;
        && var b := ParseBrowser(BrowserName(s)).value;
        && var folder := ResolveDownloadFolder(profile, s.downloadFolder);
        && folder in c.entries
        && (b == Chromium ==> s.chromiumExecutable.Some?)
        && c.result.value == Ready(s, profile, b, folder, NormalizeOs(Some(system)), userAgent, BaseArgs(userAgent, profile), InitialPrefs(folder))
  {
    if stage.result.Ok? && ParseBrowser(BrowserName(s)).Ok? {
      EquippedState(stage.entries, stage.result.value, ParseBrowser(BrowserName(s)).value, NormalizeOs(Some(system)), userAgent, s);
    }
  }

  /** Once the browser is accepted, a constructed object has its download folder on disk and the ready fields. */
  lemma EquippedState(m: Entries, profile: Path, b: Browser, opSys: string, userAgent: string, s: Settings)
    requires WellFormed(m)
    ensures var c := Equipped(m, profile, b, opSys, userAgent, s);
      var folder := ResolveDownloadFolder(profile, s.downloadFolder);
      && WellFormed(c.entries)
      && (forall k :: k in m ==> k in c.entries && c.entries[k] == m[k])
      && (c.result.Ok? ==>
          && folder in c.entries
          && (b == Chromium ==> s.chromiumExecutable.Some?)
          && c.result.value == Ready(s, profile, b, folder, opSys, userAgent, BaseArgs(userAgent, profile), InitialPrefs(folder)))
  {
    EnsuredFolderExists(m, ResolveDownloadFolder(profile, s.downloadFolder));
  }

  /**
    The download preferences and the user-data argument of a ready object name the folders
    in use, and its options are the ones given or the ones built from its fields.
  */
  lemma ReadyFolders(s: Settings, profile: Path, b: Browser, folder: Path, opSys: string, userAgent: string)
    ensures var st := Ready(s, profile, b, folder, opSys, userAgent, BaseArgs(userAgent, profile), InitialPrefs(folder));
      && DownloadDirKey in st.prefs && st.prefs[DownloadDirKey] == StringPref(folder)
      && DefaultDirectoryKey in st.prefs && st.prefs[DefaultDirectoryKey] == StringPref(folder)
      && SaveFileDirectoryKey in st.prefs && st.prefs[SaveFileDirectoryKey] == StringPref(folder)
      && 16 <= |st.args| && st.args[..16] == BaseArgs(userAgent, profile)
      && st.args[1] == "--user-data-dir=" + profile
  {
    var args := BaseArgs(userAgent, profile);
    ReadyFields(s, profile, b, folder, opSys, userAgent, args, InitialPrefs(folder));
    DownloadPrefs(b, folder);
    BaseArgsFirst(userAgent, profile);
  }

  /** The three download-directory preferences name the download folder, before and after the overrides. */
  lemma DownloadPrefs(b: Browser, folder: Path)
    ensures var p := InitialPrefs(folder);
      && DownloadDirKey in p && DefaultDirectoryKey in p && SaveFileDirectoryKey in p
      && p[DownloadDirKey] == StringPref(folder)
      && p[DefaultDirectoryKey] == StringPref(folder)
      && p[SaveFileDirectoryKey] == StringPref(folder)
    ensures var u := UpdatedPrefs(b, InitialPrefs(folder));
      && DownloadDirKey in u && DefaultDirectoryKey in u && SaveFileDirectoryKey in u
      && u[DownloadDirKey] == StringPref(folder)
      && u[DefaultDirectoryKey] == StringPref(folder)
      && u[SaveFileDirectoryKey] == StringPref(folder)
  {
    OverriddenPrefs(InitialPrefs(folder));
  }

  /**
    How construction fails. An unsupported browser name is refused once the profile is in
    place. Chromium without an executable is refused only after the download folder has
    been made, so it stays on disk together with everything the profile stage left there.
  */
  lemma ConstructErrors(stage: Effect<Path>, system: string, userAgent: string, s: Settings)
    requires WellFormed(stage.entries)
    ensures var c := Construct(stage, system, userAgent, s);
      && (stage.result.Err? ==> c == Built(Err(Profile(stage.result.error)), stage.entries))
      && (stage.result.Ok? && Lower(BrowserName(s)) !in SupportedBrowsers ==>
          c == Built(Err(BrowserNotSupported(Some(BrowserName(s)))), stage.entries))
      && (c.result == Err(ChromiumPathNotInformed) <==>
          && stage.result.Ok? && Lower(BrowserName(s)) == "chromium" && s.chromiumExecutable.None?
          && EnsuredFolder(stage.entries, ResolveDownloadFolder(stage.result.value, s.downloadFolder)).Ok?)
      && (c.result == Err(ChromiumPathNotInformed) ==>
          && ResolveDownloadFolder(stage.result.value, s.downloadFolder) in c.entries
          && forall k :: k in stage.entries ==> k in c.entries && c.entries[k] == stage.entries[k])
  {
    if stage.result.Ok? {
      var parsed := ParseBrowser(BrowserName(s));
      if parsed.Ok? {
        EquippedErrors(stage.entries, stage.result.value, parsed.value, NormalizeOs(Some(system)), userAgent, s);
        ParseBrowserName(parsed.value);
        ParseBrowserName(Chromium);
      }
    }
  }

  /** Once the browser is accepted, Chromium without an executable is refused after the download folder is made. */
  lemma EquippedErrors(m: Entries, profile: Path, b: Browser, opSys: string, userAgent: string, s: Settings)
    requires WellFormed(m)
    ensures var c := Equipped(m, profile, b, opSys, userAgent, s);
      var folder := ResolveDownloadFolder(profile, s.downloadFolder);
      && (c.result == Err(ChromiumPathNotInformed) <==>
          b == Chromium && s.chromiumExecutable.None? && EnsuredFolder(m, folder).Ok?)
      && (c.result == Err(ChromiumPathNotInformed) ==>
          && folder in c.entries
          && forall k :: k in m ==> k in c.entries && c.entries[k] == m[k])
  {
    EnsuredFolderExists(m, ResolveDownloadFolder(profile, s.downloadFolder));
  }


  // ---------------------------------------------------------------------------
  // The options object

  /** The bot's browser settings; `profiles` holds the settings inherited from the profile manager. */
  class BotOptions {
    const profiles: DefineProfile
    var opSys: string
    var browser: Browser
    var userAgent: string
    var args: seq<string>
    var downloadFolder: Path
    var prefs: Prefs
    var extensions: seq<string>
    var chromiumExecutable: Option<Path>
    var options: Options

    constructor (profiles: DefineProfile)
      ensures this.profiles == profiles
      ensures opSys == "windows" && browser == Chrome && userAgent == "" && args == [] && downloadFolder == ""
      ensures prefs == map[] && extensions == [] && chromiumExecutable == None && options == Blank(Chrome)
    {
      this.profiles := profiles;
      opSys := "windows";
      browser := Chrome;
      userAgent := "";
      args := [];
      downloadFolder := "";
      prefs := map[];
      extensions := [];
      chromiumExecutable := None;
      options := Blank(Chrome);
    }

    /** Every field of the object, the inherited ones included. */
    function State(): BotState
      reads this, profiles
    {
      BotState(
        profiles.copyProfile, profiles.numBot, profiles.profile, opSys, browser, userAgent,
        args, downloadFolder, prefs, extensions, chromiumExecutable, options)
    }

    /** `__init__`: the inherited profile setup, then each field through its setter, in order. */
    static method New(disk: Disk, cwd: Path, system: string, userAgent: string, s: Settings)
      returns (r: Result<BotOptions, BotError>)
      requires disk.Valid()
      modifies disk
      ensures disk.Valid()
      ensures var c := Construct(ProfileStage(old(disk.entries), cwd, s), system, userAgent, s);
        && disk.entries == c.entries
        && (r.Ok? <==> c.result.Ok?)
        && (r.Ok? ==> fresh(r.value) && fresh(r.value.profiles) && r.value.State() == c.result.value)
        && (r.Err? ==> r.error == c.result.error)
    {
      ghost var stage := ProfileStage(disk.entries, cwd, s);
      var defined := DefineProfile.New(disk, cwd, s.copyProfile, s.numBot, s.profile);
      if defined.Err? {
        assert stage.result == Err(defined.error) && disk.entries == stage.entries;
        return Err(Profile(defined.error));
      }
      assert stage == Effect(Ok(defined.value.profile), disk.entries);
      r := Configure(defined.value, disk, system, userAgent, s);
    }

    /** The rest of `__init__`, once the inherited profile fields are set. */
    static method Configure(profiles: DefineProfile, disk: Disk, system: string, userAgent: string, s: Settings)
      returns (r: Result<BotOptions, BotError>)
      requires disk.Valid()
      requires profiles.copyProfile == s.copyProfile && profiles.numBot == NormalizeNumBot(s.numBot)
      modifies disk
      ensures disk.Valid()
      ensures var c := Construct(Effect(Ok(profiles.profile), old(disk.entries)), system, userAgent, s);
        && disk.entries == c.entries
        && (r.Ok? <==> c.result.Ok?)
        && (r.Ok? ==> fresh(r.value) && r.value.profiles == profiles && r.value.State() == c.result.value)
        && (r.Err? ==> r.error == c.result.error)
    {
      var bot := new BotOptions(profiles);
      bot.SetOpSys(Some(system));
      var named := bot.SetBrowser(BrowserName(s));
      if named.Fail? {
        return Err(named.error);
      }
      var made := bot.Equip(disk, userAgent, s.downloadFolder);
      if made.Fail? {
        return Err(made.error);
      }
      var done := bot.Complete(s, InitialPrefs(bot.downloadFolder));
      if done.Fail? {
        return Err(done.error);
      }
      return Ok(bot);
    }

    /** `__init__` from the user agent to the download folder, once the operating system and the browser are set. */
    method Equip(disk: Disk, userAgent: string, given: Option<Path>) returns (r: Outcome<BotError>)
      requires disk.Valid()
      modifies this`userAgent, this`args, this`downloadFolder, disk
      ensures disk.Valid()
      ensures this.userAgent == userAgent && args == BaseArgs(userAgent, profiles.profile)
      ensures downloadFolder == ResolveDownloadFolder(profiles.profile, given)
      ensures match EnsuredFolder(old(disk.entries), downloadFolder)
        case Ok(m) => r == Pass && disk.entries == m
        case Err(e) => r == Fail(FileSystem(e)) && disk.entries == old(disk.entries)
    {
      this.userAgent := userAgent;
      args := BaseArgs(userAgent, profiles.profile);
      r := SetDownloadFolder(disk, given);
    }

    /** `__init__` from the preferences on, once the download folder has been made. */
    method Complete(s: Settings, initial: Prefs) returns (r: Outcome<BotError>)
      requires profiles.copyProfile == s.copyProfile && profiles.numBot == NormalizeNumBot(s.numBot)
      modifies this`prefs, this`extensions, this`chromiumExecutable, this`options, this`args
      ensures CheckChromiumExecutable(browser, s.chromiumExecutable).Err? ==> r == Fail(ChromiumPathNotInformed)
      ensures CheckChromiumExecutable(browser, s.chromiumExecutable).Ok? ==>
        r == Pass && State() == Ready(s, profiles.profile, browser, downloadFolder, opSys, userAgent, old(args), initial)
      ensures browser == old(browser) && opSys == old(opSys)
      ensures userAgent == old(userAgent) && downloadFolder == old(downloadFolder)
    {
      prefs := initial;
      extensions := s.extensions;
      r := SetChromiumExecutable(s.chromiumExecutable);
      if r.Fail? {
        return;
      }
      SetOptions(s.options);
    }

    /** The `op_sys` setter. */
    method SetOpSys(system: Option<string>)
      modifies this`opSys
      ensures opSys == NormalizeOs(system)
    {
      opSys := NormalizeOs(system);
    }

    /** The `browser` setter: an unsupported name raises and leaves the browser as it was. */
    method SetBrowser(name: string) returns (r: Outcome<BotError>)
      modifies this`browser
      ensures ParseBrowser(name).Ok? ==> r == Pass && browser == ParseBrowser(name).value
      ensures ParseBrowser(name).Err? ==> r == Fail(ParseBrowser(name).error) && browser == old(browser)
    {
      var parsed := ParseBrowser(name);
      if parsed.Err? {
        return Fail(parsed.error);
      }
      browser := parsed.value;
      return Pass;
    }

    /**
      The `download_folder` setter: the folder is stored first, then made; a folder that
      already exists is fine, any other failure raises with the folder already stored.
    */
    method SetDownloadFolder(disk: Disk, given: Option<Path>) returns (r: Outcome<BotError>)
      requires disk.Valid()
      modifies this`downloadFolder, disk
      ensures disk.Valid()
      ensures downloadFolder == ResolveDownloadFolder(profiles.profile, given)
      ensures match EnsuredFolder(old(disk.entries), downloadFolder)
        case Ok(m) => r == Pass && disk.entries == m
        case Err(e) => r == Fail(FileSystem(e)) && disk.entries == old(disk.entries)
    {
      downloadFolder := ResolveDownloadFolder(profiles.profile, given);
      var made := disk.MakeDirs(downloadFolder);
      if made.Fail? && !made.error.FileExists? {
        r := Fail(FileSystem(made.error));
      } else {
        r := Pass;
      }
    }

    /** The `chromium_executable` setter: Chromium without an executable raises and stores nothing. */
    method SetChromiumExecutable(executable: Option<Path>) returns (r: Outcome<BotError>)
      modifies this`chromiumExecutable
      ensures CheckChromiumExecutable(browser, executable).Ok? ==> r == Pass && chromiumExecutable == executable
      ensures CheckChromiumExecutable(browser, executable).Err? ==>
        r == Fail(ChromiumPathNotInformed) && chromiumExecutable == old(chromiumExecutable)
    {
      if browser == Chromium && executable.None? {
        return Fail(ChromiumPathNotInformed);
      }
      chromiumExecutable := executable;
      return Pass;
    }

    /** The `options` setter: given options are stored as they are, otherwise they are built. */
    method SetOptions(given: Option<Options>)
      modifies this`options, this`args, this`prefs
      ensures given.Some? ==> options == given.value && args == old(args) && prefs == old(prefs)
      ensures given.None? ==>
        && options == OptionsFor(browser, old(args), old(prefs), extensions, chromiumExecutable)
        && args == ExtendedArgs(browser, old(args))
        && prefs == UpdatedPrefs(browser, old(prefs))
    {
      if given.None? {
        var built := DefineOptions();
        options := built;
      } else {
        options := given.value;
      }
    }

    /**
      `define_options`: build the options for the browser. For the Chrome family the
      flags are appended to the stored arguments and the overrides to the stored
      preferences, so both stay changed after the call.
    */
    method DefineOptions() returns (opts: Options)
      modifies this`args, this`prefs
      ensures opts == OptionsFor(browser, old(args), old(prefs), extensions, chromiumExecutable)
      ensures args == ExtendedArgs(browser, old(args))
      ensures prefs == UpdatedPrefs(browser, old(prefs))
    {
      var load;
      opts, load := Prepare();
      ghost var shell := OptionsFor(browser, old(args), old(prefs), [], chromiumExecutable);
      opts := AddArguments(opts, args);
      assert opts == shell.(arguments := ExtendedArgs(browser, old(args)));
      OptionsForParts(browser, old(args), old(prefs), extensions, chromiumExecutable);
      if browser.TakesExtensions() {
        var files, text := AddExtensions(load, browser, extensions);
        var flag := LoadArgument(text, LoadList(browser, extensions));
        LoadFlagEmitted(browser, extensions);
        opts := opts.(arguments := opts.arguments + flag, extensionFiles := files);
      }
    }

    /**
      The browser-specific part of `define_options`: the options without arguments or
      extension files, the stored arguments and preferences as they are left, and the
      load text after the Chrome-family pass over the extensions.
    */
    method Prepare() returns (opts: Options, load: string)
      modifies this`args, this`prefs
      ensures opts == OptionsFor(browser, old(args), old(prefs), [], chromiumExecutable).(arguments := [])
      ensures args == ExtendedArgs(browser, old(args))
      ensures prefs == UpdatedPrefs(browser, old(prefs))
      ensures load == LoadPrefix + Trail(if browser.ChromeFamily() then extensions else [])
    {
      load := LoadPrefix;
      if browser == Firefox {
        var copied := CopyPrefs(prefs);
        opts := Blank(Firefox).(preferences := copied);
      } else if browser.ChromeFamily() {
        opts := Blank(browser);
        if browser == Chromium {
          opts := opts.(binaryLocation := chromiumExecutable);
        }
        args := args + ChromeFlags;
        prefs := prefs + ChromePrefOverrides;
        opts := opts.(experimentalPrefs := Some(prefs));
        load := AppendTrail(load, extensions);
      } else {
        var copied := CopyPrefs(prefs);
        opts := Blank(Edge).(capabilities := copied);
      }
    }
  }

  /**
    The extension handling of every browser but Firefox: packed extensions are added as
    files, unpacked ones extend the load text, and the text minus its last comma is added
    as the last argument when its second `=`-field is non-empty.
  */
  method AddExtensions(text: string, b: Browser, extensions: seq<string>) returns (files: seq<string>, load: string)
    requires b.TakesExtensions()
    requires text == LoadPrefix + Trail(if b.ChromeFamily() then extensions else [])
    ensures files == Packed(extensions)
    ensures load == LoadText(b, extensions)
  {
    files, load := SortExtensions(text, extensions);
    LoadTextParts(b, extensions);
  }

  /**
    The load argument for a load text built over the list `l`: added exactly when `l` is
    non-empty and its first entry does not start with `=`, and then the comma-joined list.
  */
  method LoadArgument(load: string, ghost l: seq<string>) returns (flag: seq<string>)
    requires load == LoadPrefix + Trail(l)
    ensures flag != [] <==> l != [] && (l[0] == "" || l[0][0] != '=')
    ensures flag != [] ==> flag == [LoadPrefix + Join(l)]
  {
    LoadTextFields(l);
    if SecondField(load, '=') != "" {
      flag := [load[..|load| - 1]];
    } else {
      flag := [];
    }
  }

  /** The options split into the part the extensions do not affect and the two fields they do. */
  lemma OptionsForParts(b: Browser, args: seq<string>, prefs: Prefs, extensions: seq<string>, executable: Option<Path>)
    ensures OptionsFor(b, args, prefs, extensions, executable)
      == OptionsFor(b, args, prefs, [], executable).(
           arguments := ExtendedArgs(b, args) + LoadFlag(b, extensions),
           extensionFiles := if b.TakesExtensions() then Packed(extensions) else [])
  {
  }

  /** The load text as `define_options` builds it: the Chrome-family pass, then the unpacked pass. */
  lemma LoadTextParts(b: Browser, extensions: seq<string>)
    ensures LoadText(b, extensions)
      == LoadPrefix + Trail(if b.ChromeFamily() then extensions else []) + Trail(if b.TakesExtensions() then Unpacked(extensions) else [])
  {
    TrailAppend(if b.ChromeFamily() then extensions else [], if b.TakesExtensions() then Unpacked(extensions) else []);
  }

  /** The `set_preference` / `set_capability` loop: every preference is set, one key at a time. */
  method CopyPrefs(prefs: Prefs) returns (copied: Prefs)
    ensures copied == prefs
  {
    copied := map[];
    var pending := prefs.Keys;
    while pending != {}
      invariant pending <= prefs.Keys
      invariant copied.Keys == prefs.Keys - pending
      invariant forall k :: k in copied ==> copied[k] == prefs[k]
      decreases pending
    {
      var key :| key in pending;
      copied := copied[key := prefs[key]];
      pending := pending - {key};
    }
  }

  /** The `load_extensions += extension + ','` loop over a list. */
  method AppendTrail(text: string, items: seq<string>) returns (r: string)
    ensures r == text + Trail(items)
  {
    r := text;
    var i := 0;
    while i < |items|
      invariant 0 <= i <= |items|
      invariant r == text + Trail(items[..i])
    {
      assert items[..i + 1] == items[..i] + [items[i]];
      TrailSnoc(items[..i], items[i]);
      r := r + (items[i] + ",");
      i := i + 1;
    }
    assert items[..|items|] == items;
  }

  /** The `add_argument` loop: every argument is added, in order, after those already there. */
  method AddArguments(o: Options, args: seq<string>) returns (r: Options)
    ensures r == o.(arguments := o.arguments + args)
  {
    r := o;
    var j := 0;
    while j < |args|
      invariant 0 <= j <= |args|
      invariant r == o.(arguments := o.arguments + args[..j])
    {
      assert args[..j + 1] == args[..j] + [args[j]];
      r := r.(arguments := r.arguments + [args[j]]);
      j := j + 1;
    }
    assert args[..|args|] == args;
  }

  /**
    The extension loop: packed extensions are added as files in order, unpacked ones are
    appended to the load text with a comma each.
  */
  method SortExtensions(text: string, extensions: seq<string>) returns (files: seq<string>, load: string)
    ensures files == Packed(extensions)
    ensures load == text + Trail(Unpacked(extensions))
  {
    files := [];
    load := text;
    var k := 0;
    while k < |extensions|
      invariant 0 <= k <= |extensions|
      invariant files == Packed(extensions[..k])
      invariant load == text + Trail(Unpacked(extensions[..k]))
    {
      var extension := extensions[k];
      assert extensions[..k + 1] == extensions[..k] + [extension];
      SplitSnoc(extensions[..k], extension);
      ghost var unpacked := Unpacked(extensions[..k]);
      if EndsWith(extension, ".crx") {
        assert Unpacked(extensions[..k + 1]) == unpacked;
        files := files + [extension];
      } else {
        assert Packed(extensions[..k + 1]) == files;
        assert Unpacked(extensions[..k + 1]) == unpacked + [extension];
        TrailSnoc(unpacked, extension);
        assert load + extension + "," == text + (Trail(unpacked) + extension + ",");
        load := load + extension + ",";
      }
      k := k + 1;
    }
    assert extensions[..|extensions|] == extensions;
  }
}
