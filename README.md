# MyBot configuration layer, in Dafny

This project models the configuration layer of MyBot. That layer builds the settings of one
browser-automation bot before a driver session is started. It has two parts.

- **The profile manager** (`DefineProfile`, `config/defineprofile.py`):
  - normalises the bot index: a missing index becomes `0`, and a negative one becomes a float through `/= -1`;
  - derives the bot's profile directory `<cwd>\bots\bot<index>`;
  - wipes that directory, then re-creates it empty or copies a source profile into it;
  - polls until the directory exists (`check_folder`).
- **The options builder** (`BotOptions`, `config/__init__.py`):
  - validates the operating-system name, the browser kind, the download folder and the Chromium executable;
  - `define_options` turns the browser kind, the sixteen base arguments, the preference map, the extension list and the executable into a browser options record. Chrome, Chromium and undetected Chrome append nineteen fixed flags to the stored arguments and two overrides to the stored preferences, and those changes persist. Firefox gets every preference through `set_preference` and Edge through `set_capability`. Packed `.crx` extensions are added as files, and the others are collected into a `--load-extension=` argument.

Modules:

- `Wrappers` (`wrappers.dfy`): `Option`, `Result` and `Outcome`.
- `Text` (`text.dfy`): the string operations the source relies on, written out:
  - `str.lower` on ASCII;
  - `str.endswith`;
  - `str(n)`;
  - `split('=')[1]`;
  - `','.join`;
  - the `s += e + ','` loop.
- `Files` (`files.dfy`): the filesystem as a map from backslash-separated paths to directories and files, kept well formed: every enclosing directory of an entry exists and is a directory. `shutil.rmtree`, `os.makedirs` and `shutil.copytree` are functions on that map, with their errors. The class `Disk` holds the map as mutable state and applies them.
- `Profiles` (`profiles.dfy`): the profile manager. The class `DefineProfile` has the fields and setters of the Python class. `DefinedProfile` is the function its `define_profile` method is proved against.
- `Config` (`config.dfy`): the options builder. The class `BotOptions` has the fields and setters of the Python class. Inheritance from `DefineProfile` is modelled as a `profiles` field. `Construct` is the function that construction is proved against. `OptionsFor`, `ExtendedArgs` and `UpdatedPrefs` are the functions `define_options` is proved against.

Values that come from outside the configuration layer are parameters:

- the result of `platform.system()`;
- the random user agent of `fake_useragent`;
- the result of `os.getcwd()`.

Keyword arguments are gathered in a `Settings` record; `None` stands for a keyword that is left out.

Two behaviours of the code are easy to misread. The model follows the code:

- **The `--load-extension=` argument.** For Chrome, Chromium and undetected Chrome, the code first adds every extension to the text, packed ones included. It then adds each unpacked one again. So an unpacked extension is named twice and a packed one once (`LoadListCounts`). The argument is added when the field between the first and the second `=` is non-empty, not when some unpacked extension exists (`LoadFlagEmitted`).
- **The missing Chromium executable.** The error is raised only after the profile stage has run and `os.makedirs` for the download folder has either succeeded or found the path already present. Whatever those two steps left on disk stays there (`ConstructErrors`).

## Model

| member | source | states |
|---|---|---|
| Config.BrowserNotSupportedMessage | config/__init__.py:15-22 | the message is the given text, followed by a space and the browser name exactly when a browser is given |
| Config.ParseBrowser | config/__init__.py:97-106 | a name is accepted exactly when its lower-case form is one of the five supported names, and the browser stored has that lower-case name; any other name gives `BrowserNotSupported` carrying the name as given |
| Config.ParseBrowserName | config/__init__.py:97-106 | each of the five browsers is accepted under its own name |
| Config.RefusalMessage | config/__init__.py:15-22 | a refused browser name raises `BrowserNotSupported`, whose message is the default text, a space and the name as given |
| Config.BotOptions.SetBrowser | config/__init__.py:97-106 | an accepted name stores the browser; a refused one raises `BrowserNotSupported` and leaves the stored browser unchanged |
| Config.NormalizeOs | config/__init__.py:82-89 | the stored system is always windows, linux or macos; it is macos exactly when the name is darwin in any case, and linux exactly when the name is linux in any case; a missing or unknown name gives windows |
| Config.BotOptions.SetOpSys | config/__init__.py:82-89 | the stored system is the normalised name |
| Config.ResolveDownloadFolder | config/__init__.py:114-118 | a given folder is kept verbatim; without one the folder is the profile path followed by `\.downloads`, for every profile path, which for a non-empty profile is `.downloads` directly inside the profile directory |
| Config.EnsuredFolder | config/__init__.py:119-122 | the reference definition of the download folder's `makedirs` with `FileExistsError` ignored: the result of `makedirs`, the filesystem unchanged when the folder exists, and any other error passed on (its properties are in `EnsuredFolderExists`) |
| Config.EnsuredFolderExists | config/__init__.py:119-122 | after `makedirs` with `FileExistsError` ignored, the folder exists, earlier entries are kept and the filesystem stays well formed; an existing folder is left alone; the call fails only for an empty path or a file in the way |
| Config.BotOptions.SetDownloadFolder | config/__init__.py:114-122 | the folder is stored, then made as `EnsuredFolder` says; a failure other than "already exists" raises and leaves the filesystem unchanged |
| Config.CheckChromiumExecutable | config/__init__.py:130-133 | `ChromiumPathNotInformed` exactly when the browser is Chromium and no executable is given; otherwise the executable is kept unchanged |
| Config.BotOptions.SetChromiumExecutable | config/__init__.py:130-133 | stores the executable when the check passes; raises `ChromiumPathNotInformed` and stores nothing when it fails |
| Config.BotOptions.SetOptions | config/__init__.py:141-145 | given options are stored as they are, with arguments and preferences untouched; otherwise the options built by `define_options` are stored, and the arguments and preferences are left as `define_options` leaves them |
| Config.BotOptions.DefineOptions | config/__init__.py:148-216 | the options returned are `OptionsFor` of the browser, the arguments and preferences before the call, the extensions and the executable; the stored arguments gain the Chrome-family flags and the stored preferences gain the overrides |
| Config.BotOptions.Prepare | config/__init__.py:150-194 | the per-browser branch: the options class with the preferences, the capabilities, the experimental prefs or the binary location filled in; the stored arguments and preferences updated in place; and the load text after the Chrome-family pass over every extension |
| Config.CopyPrefs | config/__init__.py:154-155 | the `set_preference` / `set_capability` loop sets every preference, with its value |
| Config.AppendTrail | config/__init__.py:193-194 | the append loop adds each entry followed by a comma, in order |
| Config.AddArguments | config/__init__.py:201-202 | the `add_argument` loop adds every argument in order after those already there, and changes nothing else in the options |
| Config.SortExtensions | config/__init__.py:208-212 | packed extensions are added as files in order; unpacked ones are appended to the load text with a comma each, in order |
| Config.AddExtensions | config/__init__.py:204-212 | after both passes, the files are the packed extensions and the load text is `--load-extension=` followed by every entry of `LoadList`, each with a comma |
| Config.LoadArgument | config/__init__.py:213-214 | for a load text built over a list of entries, the argument is added exactly when that list is non-empty and its first entry does not start with `=`, and it is then `--load-extension=` followed by the comma-joined entries, with no trailing comma |
| Config.LoadTextParts | config/__init__.py:193-212 | the load text is the Chrome-family pass followed by the unpacked pass |
| Config.OptionsFor | config/__init__.py:148-216 | the reference definition of what `define_options` returns: the options class of the browser; the stored arguments, the Chrome-family flags and the load argument; preferences, capabilities or the experimental `prefs` option; the packed extensions; and Chromium's binary location (its properties are the `Defined…` lemmas) |
| Config.OptionsForParts | config/__init__.py:201-214 | the extensions affect only the load argument at the end of the arguments and the list of extension files |
| Config.DefinedArguments | config/__init__.py:168-214 | the stored arguments come first, in order; the Chrome family follows them with the nineteen flags; at most one load argument comes last; Firefox gets exactly the stored arguments; Edge gets them plus at most the load argument |
| Config.LoadFlagEmitted | config/__init__.py:213-214 | the load argument is added exactly when the collected list is non-empty and its first entry does not start with `=`; it is then `--load-extension=` followed by the comma-joined list, with no trailing comma |
| Config.SplitCounts | config/__init__.py:208-212 | splitting by the `.crx` suffix sends every occurrence of a packed extension to the files and of an unpacked one to the load text, losing and duplicating nothing |
| Config.LoadListCounts | config/__init__.py:193-212 | the Chrome family names each packed extension once and each unpacked one twice in the load text; Edge names only the unpacked ones, once each |
| Config.DefinedExtensions | config/__init__.py:204-212 | for every browser but Firefox, the extension files are exactly the `.crx` entries, with their multiplicities; Firefox gets no extension files and its options do not depend on the extension list |
| Config.DefinedPreferences | config/__init__.py:152-199 | Firefox gets every preference as a preference and Edge as a capability; the Chrome family gets one experimental `prefs` option holding the preferences with the plugin list added, the save-to-disk type replaced and every other entry kept |
| Config.OverriddenPrefs | config/__init__.py:188-189 | the update adds or replaces exactly its two keys and keeps every other preference |
| Config.DefinedBinaryLocation | config/__init__.py:162-164 | only Chromium options have a binary location, and it equals the executable |
| Config.DefineOptionsTwice | config/__init__.py:168-189 | a second `define_options` appends the nineteen flags again, while the preference update has no further effect |
| Config.DownloadPrefs | config/__init__.py:56-70 | the three download-directory preferences name the download folder, before and after the Chrome-family overrides |
| Config.ReadyFolders | config/__init__.py:38-70 | a ready object's download preferences name the download folder, and its arguments start with the sixteen base arguments, whose second names the profile directory |
| Config.Construct | config/__init__.py:30-74 | the reference definition of construction: the profile stage's error, then the browser check, then the download folder, then the Chromium check, each in the order `__init__` runs the setters, ending with the ready fields (its properties are `ConstructedState` and `ConstructErrors`) |
| Config.ProfileStageFresh | config/defineprofile.py:54-58 | the inherited profile stage keeps the filesystem well formed; a given profile with copying off is kept with no filesystem change; a profile it makes exists as a directory |
| Config.ConstructedState | config/__init__.py:30-74 | construction keeps the filesystem well formed and every entry the profile stage left, with its node; on success, the profile stage and the browser check passed, the download folder exists, Chromium has an executable, and every field is the ready value for the inputs |
| Config.EquippedState | config/__init__.py:55-74 | from the download folder on, every earlier entry is kept with its node, and success means the folder exists on disk, Chromium has an executable and the fields are the ready values |
| Config.ConstructErrors | config/__init__.py:30-74 | a profile error and an unsupported browser leave the filesystem as the profile stage left it; `ChromiumPathNotInformed` is raised exactly for Chromium without an executable once the download folder could be made, and that folder then stays on disk |
| Config.EquippedErrors | config/__init__.py:114-133 | Chromium without an executable is refused exactly when the download folder could be made, and every earlier entry is kept beside it |
| Config.BotOptions.New | config/__init__.py:30-74 | construction runs the inherited profile setup and then each setter in order; the filesystem afterwards, the error raised, or every field of the new object is what `Construct` gives |
| Config.BotOptions.Configure | config/__init__.py:33-74 | after the profile fields are set, the setters from the operating system to the options end as `Construct` says |
| Config.BotOptions.Equip | config/__init__.py:35-55 | stores the user agent, the sixteen base arguments and the resolved download folder, and makes that folder as `EnsuredFolder` says |
| Config.BotOptions.Complete | config/__init__.py:56-74 | stores the preferences and the extensions, then refuses Chromium without an executable, or stores every remaining field as `Ready` gives it |
| Profiles.CheckFolder | config/defineprofile.py:18-27 | the poll returns true exactly when the folder exists and the timeout is positive; otherwise it raises `FolderDoesNotExist` |
| Profiles.NormalizeNumBot | config/defineprofile.py:41-46 | a missing index is 0; a non-negative index is kept; a negative one is negated and becomes a float, so the stored index is never negative |
| Profiles.DefineProfile.SetNumBot | config/defineprofile.py:41-46 | the stored index is the normalised one, and the other fields are unchanged |
| Profiles.BotNumber.Text | config/defineprofile.py:63 | `str()` of the stored index uses only digits and `.`, and has a `.` (as in `bot3.0`) exactly when the index is a float |
| Profiles.BotNumberTextInjective | config/defineprofile.py:63 | different stored indices are written differently |
| Profiles.ProfilePath | config/defineprofile.py:62-63 | the profile directory is `bot<index>` directly inside `<cwd>\bots` |
| Profiles.ProfilePathsSeparate | config/defineprofile.py:62-63 | bots with different stored indices get profile directories that are neither equal nor nested |
| Profiles.DefineProfile.SetProfile | config/defineprofile.py:54-58 | a given profile with copying off is stored verbatim with no filesystem change; otherwise the result of `define_profile` is stored, or its error is raised with the profile unchanged |
| Profiles.DefinedProfile | config/defineprofile.py:61-78 | the reference definition of `define_profile`: wipe the profile directory with a missing one ignored, then copy the source or make the directory, then poll for it; each failure is passed on with the filesystem as far as it got (its properties are the `DefinedProfile…` lemmas) |
| Profiles.DefineProfile.DefineProfileDir | config/defineprofile.py:61-78 | the result and the filesystem afterwards are those `DefinedProfile` gives |
| Profiles.DefineProfile.New | config/defineprofile.py:30-33 | the copy flag and the normalised index are stored; then the profile is stored as `SetProfile` says |
| Profiles.AfterRemoval | config/defineprofile.py:65-66 | after the wipe, where a missing directory is ignored, nothing is left at or inside the profile directory, everything else is kept, and the filesystem stays well formed |
| Profiles.DefinedProfileFresh | config/defineprofile.py:61-78 | `define_profile` keeps the filesystem well formed and leaves every entry outside the profile directory as it was; after a success the profile directory exists, empty when made, and holding exactly the source's contents when copied from a source that does not contain the profile directory |
| Profiles.DefinedProfileFrame | config/defineprofile.py:61-78 | whatever `define_profile` ends with, every entry outside the profile directory is unchanged, and the only entries added are the directory, what lies inside it and its enclosing directories |
| Profiles.OtherProfileKept | config/defineprofile.py:61-78 | setting up one bot's profile leaves another bot's existing profile directory, and everything inside it, as it was |
| Profiles.FrameKeepsOther | config/defineprofile.py:65-71 | a change confined to one directory and its enclosing directories leaves a separate directory and its contents as they were |
| Profiles.CreatedFresh | config/defineprofile.py:68-71 | the creation step, after the wipe, leaves the directory in place, empty when made and a copy of the source when copied |
| Profiles.RemovalKeepsSource | config/defineprofile.py:65-69 | wiping the profile directory leaves the contents of a separate source profile as they were |
| Profiles.DefinedProfileErrors | config/defineprofile.py:61-78 | a file at the profile path fails the wipe; copying without a source fails; a missing source fails in the copy with its own error; making the directory succeeds unless a file is in the way; the poll never turns a success into `ProfileNotCreated` |
| Profiles.RemakeSame | config/defineprofile.py:65-71 | wiping a freshly made directory, with whatever was put inside it, and making it again restores it |
| Profiles.CopiedSame | config/defineprofile.py:69 | what the copy writes depends only on what lies inside the source |
| Profiles.DefinedProfileTwice | config/defineprofile.py:61-78 | after a successful run, running `define_profile` again for the same bot ends in the same result and filesystem as the first run, when the profile directory is not inside the source |
| Profiles.RerunSame | config/defineprofile.py:61-78 | a run over a directory that the wipe removes and the creation step restores exactly returns the same path and filesystem |
| Files.RemoveTreeEffect | config/defineprofile.py:66 | after `rmtree` nothing is left at or inside the directory, and every other entry is kept unchanged |
| Files.RemoveTreeWellFormed | config/defineprofile.py:66 | `rmtree` keeps the filesystem well formed |
| Files.MakeDirsEffect | config/defineprofile.py:71 | after `makedirs` the directory exists and is empty, every earlier entry is kept unchanged, and the only new entries are the directory and its enclosing directories |
| Files.MakeDirsWellFormed | config/defineprofile.py:71 | `makedirs` keeps the filesystem well formed |
| Files.MakeDirsExisting | config/__init__.py:119-122 | `makedirs` on an existing path raises `FileExistsError` |
| Files.CopyTreeEffect | config/defineprofile.py:69 | after `copytree` the destination is a directory holding exactly what the source held, every earlier entry is kept with its node, and the only new entries are the destination, what lies inside it and its enclosing directories |
| Files.CopiedContents | config/defineprofile.py:69 | copying into a directory that holds nothing gives it the contents of the source |
| Files.CopyTreeWellFormed | config/defineprofile.py:69 | `copytree` keeps the filesystem well formed |
| Files.Disk.Exists | config/defineprofile.py:22 | `os.path.exists` is true exactly when the path is present |
| Files.Disk.RemoveTree | config/defineprofile.py:66 | applies `rmtree` to the disk: the new entries, or the error with nothing changed |
| Files.Disk.MakeDirs | config/defineprofile.py:71 | applies `makedirs` to the disk: the new entries, or the error with nothing changed |
| Files.Disk.CopyTree | config/defineprofile.py:69 | applies `copytree` to the disk: the new entries, or the error with nothing changed |
| Text.NatToStringInjective | config/defineprofile.py:63 | different integers are written with different digits |
| Text.TrailIsJoinPlusComma | config/__init__.py:213-214 | the load text without its last character is the comma-joined list |
| Text.TrailAppend | config/__init__.py:193-212 | appending over two lists in turn gives the text of their concatenation |

## Left out

- `MyBot.driver` in `__init__.py` only dispatches to the driver constructors of the automation library. It is not part of this model.
- The Selenium options classes become the `Options` record. It keeps:
  - which class was instantiated;
  - the `add_argument` calls, in order;
  - the preferences, the capabilities and the experimental `prefs` option;
  - the `add_extension` calls, in order;
  - the binary location.
- The record leaves out the library's own checks and defaults: `add_extension` refusing a file that does not exist, the `binary_location` setter raising `TypeError` for `None`, and the default capabilities of an Edge options object. `browser` can be set to `chromium` after construction while the executable is still `None`; assigning `options` then reaches that `TypeError` in the source (config/__init__.py:164), whereas `DefineOptions` and `SetOptions` return options whose binary location is `None`.
- The preference dictionary is a map, so its insertion order is not modelled. The Chrome family's experimental option holds the same dictionary object as `self.prefs`, but the model stores its value. The aliasing is therefore not modelled: a later in-place update of `self.prefs`, such as a second `define_options`, would also show in options built earlier.
- `platform.system()`, `os.getcwd()` and `UserAgent(...).random` are inputs, so the user-agent library's `browsers`, `os` and `min_version` filters are not modelled. `_min_version = 110.0` feeds only that library and is left out.
- Profiles.CheckFolder: the wall clock and `time.sleep(1)` become a count of one-second attempts against a filesystem that nothing else changes meanwhile. So `define_profile` never ends in `ProfileNotCreated` in the model, although the error path is modelled.
- Text.Lower: `str.lower()` is modelled on ASCII letters only. Every comparison here gives the same answer either way. The only non-ASCII character that lower-cases to a single ASCII letter is the Kelvin sign, which becomes `k`, and none of the names compared contains a `k`.
- Profiles.BotNumber.Text: the float `num_bot /= -1` produces is modelled as exact, `n.0`, and so is its text. That holds only for |n| up to 2^53. Beyond it the double rounds, so -(2^53) and -(2^53+1) both give `bot9007199254740992.0` and share a directory, and from 1e16 Python writes the float in exponent form. `BotNumberTextInjective` and `ProfilePathsSeparate` are proved of the model and hold for the program only below 2^53.
- Profiles.NormalizeNumBot: the bot index is an integer or missing. A float index such as `num_bot=1.5`, which gives `bot1.5`, is not modelled.
- The default messages of `ProfileNotCreated` and `FolderDoesNotExist` are not modelled; the errors are modelled without their text.
- `copy_profile` is a boolean. Python's `is True` test treats every other value as false, which the model does the same way.
- The `profile` setter with `copy_profile` true passes the given profile, possibly `None`, to `copytree`. There `copytree(None, dst)` scans the working directory, creates `dst` with `os.makedirs`, and then raises `TypeError` when it joins `None` with an entry name. The model turns it into the error `SourceNotGiven` and creates no destination.
- Files.Entries: two paths name the same entry only when they are the same string. Relative paths are not resolved against the working directory, and `.`, `..`, `/`, doubled or trailing separators and Windows letter case are not normalised. A source profile given as a relative path such as `bots\bot0` is therefore a different key from `<cwd>\bots\bot0`, although the program treats them as the same directory. In the program, wiping the latter makes `copytree` of the former fail; in the model it does not, and `DefinedProfileFresh`'s guard that the profile directory is not inside the source does not see the overlap.
- Files.CopyTreeSpec: a copy into the source's own subtree is modelled as one snapshot copy. The real `copytree` may recurse into what it has just written; `DefinedProfileFresh` and `DefinedProfileTwice` state their contents results only when the profile directory is not inside the source.
- Permissions, symbolic links and partial failures of `rmtree`, `makedirs` and `copytree` are left out. Each operation either completes or fails with no effect.
- The `download_folder` default is built with a backslash. The model uses the backslash separator throughout, as every path the source builds does; other platforms' separators are not modelled.
- An explicit `browser=None` keyword, which makes `.lower()` raise `AttributeError`, is not modelled: the browser name is always a string, `chrome` when the keyword is left out.
