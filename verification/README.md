# waifu-roller in Dafny

waifu-roller automates rolling for characters with the Mudae bot on Discord.
It brings the Discord desktop window to the front and opens the target
channel with the quick switcher. It then types the roll command a chosen
number of times, optionally followed by the daily commands, and can finally
give focus back to the window it was started from. Between actions it waits
for a cooldown. A pause key freezes the run, and every wait also blocks while
Discord is not the active window.

This project models that engine and the deterministic code around it:

- **Traces.** Each automation step is a pure function that returns its trace:
  the sequence of keystrokes, window operations, gated waits, plain sleeps and
  console messages it performs (`Actions`). Three generations are covered:
  - the current engine of src/waifu/core.py (`Core`, plus the pause flag and
    the gated wait in `Gate`);
  - the earlier ungated engine of src/keystrokes.py (`Keystrokes`);
  - the first standalone script, test/original.py (`Original`).

  Properties are stated on projections of a trace: what is typed, which waits
  happen, what is printed, and which window operations occur.
- **Validators.** These are the checks on the configuration's defaults in
  both parser versions (`Defaults`, `WaifuParser`, `LegacyParser`). They also
  include the check of the configuration file against its schema (`Config`).
  Loaded YAML/JSON values are a tagged datatype (`PyValues`).
- **Rewrites.** This covers:
  - the exception classes, the configuration-path tip and the rendering of a
    configuration error (`Exceptions`);
  - the choice of the `app-*` folder holding Discord.exe (`Launcher`);
  - the `__version__` line rewrite of update.py (`VersionFile`);
  - the three pre-push updaters of build/update.py (`BuildUpdate`).

Some behaviour is decided by the outside world: the windows that are open,
the active window's title, the directory listing, the platform name, and the
pause flag and focus seen at each poll. These are all parameters.

Two facts about the code shape the model:

- The current engine has no launch fallback. `DiscordNotOpenError`
  propagates out of `run_autogui` before any keystroke (`Core.RunAutogui`).
  Only the original script, test/original.py, launches the application, and
  it does so when the window list is empty (`Original.OpenDiscordEffects`).
- In src/open.py, `open_discord` only checks the platform. Its locate/launch
  body is commented out (`Launcher.OpenDiscord`).

## Model

| member | source | states |
|---|---|---|
| Core.TitleExamples | src/waifu/core.py:47-50 | "Discord" and "#general - Discord" are Discord titles; "Discordian", "Discord - Notepad" and no title are not |
| Core.LocateDiscord | src/waifu/core.py:84-95 | a window is found exactly when some title passes the Discord test, and it is the first such window in list order; otherwise the error is DiscordNotOpenError listing the titles |
| Core.OpenDiscord | src/waifu/core.py:73-103 | fails with DiscordNotOpenError exactly when no window qualifies, with no window operation; otherwise it focuses the first qualifying window |
| Core.FocusEffects | src/waifu/core.py:99-103 | focusing performs minimize, maximize, activate on the chosen window in that order, types nothing, does not wait, and prints the move notice only when verbose |
| Core.NavigationQuery | src/waifu/core.py:119 | the query always starts with '#'; a channel that already starts with '#' is used as is, and any other gets one '#' in front |
| Core.NavigationQueryIdempotent | src/waifu/core.py:119 | normalising a query a second time changes nothing |
| Core.NavigationKeysEffects | src/waifu/core.py:127-142 | the four navigation keys type exactly the query plus Enter, are followed by four ACTION waits, print nothing and touch no window |
| Core.NavigateTyped | src/waifu/core.py:106-147 | navigation types exactly one text: the normalised query followed by a newline |
| Core.NavigateWaits | src/waifu/core.py:127-142 | navigation performs exactly four gated ACTION waits |
| Core.NavigatePrints | src/waifu/core.py:120-147 | navigation prints the query notice and the finished notice when verbose, and no verbose-gated message otherwise |
| Core.NavigateQuiet | src/waifu/core.py:106-147 | verbosity only adds console lines: without them the trace is the silent one, which is the paced keys |
| Core.NavigateWindowOps | src/waifu/core.py:106-147 | navigation performs no window operation |
| Core.AttemptsTyped | src/waifu/core.py:166-167 | the roll loop from k to num types "$command\n" exactly num-k+1 times (none when k > num) |
| Core.AttemptsWaits | src/waifu/core.py:166-172 | the roll loop performs one ROLLING wait per attempt |
| Core.AttemptsPrints | src/waifu/core.py:166-171 | progress lines (k/num) ... (num/num) appear in order, one per attempt, only when verbose |
| Core.AttemptPrints | src/waifu/core.py:167-172 | one attempt prints its own progress line when verbose and no verbose-gated message otherwise |
| Core.AttemptsQuiet | src/waifu/core.py:166-172 | verbosity only adds console lines to the roll loop, which performs no window operation |
| Core.QuietAttemptsAlternate | src/waifu/core.py:166-172 | without console lines, the roll loop alternates the typed roll command and a ROLLING wait, num times |
| Core.ExtrasTyped | src/waifu/core.py:176-181 | the daily extras type "$daily\n" then "$dk\n" when daily is set, and nothing otherwise |
| Core.ExtrasWaits | src/waifu/core.py:176-179 | the daily extras contain exactly one ROLLING wait when daily is set; without the notice they are "$daily", that wait, then "$dk" |
| Core.RollingTyped | src/waifu/core.py:150-181 | rolling types exactly num roll commands (none when num <= 0), then the two daily commands after all rolls when asked |
| Core.RollingWaits | src/waifu/core.py:150-181 | rolling waits ROLLING once per roll and once more when daily is set (where each wait falls is stated by Core.RollingQuiet) |
| Core.ExtrasPrints | src/waifu/core.py:176-181 | the daily extras print only the daily notice, and only when daily and verbose are both set |
| Core.RollingPrints | src/waifu/core.py:164-181 | when verbose, rolling prints the start, the progress lines in order, the finish and, with daily, the daily notice; it prints no verbose-gated message otherwise |
| Core.RollingQuiet | src/waifu/core.py:150-181 | without console lines, rolling is the alternating loop followed, with daily, by "$daily", a wait and "$dk" as the last actions |
| Core.RollingWindowOps | src/waifu/core.py:150-181 | rolling performs no window operation |
| Core.RevertEffects | src/waifu/core.py:184-208 | without its notices the revert is exactly a REVERT wait followed by activating the caller's window; it types nothing and prints its two notices only when verbose |
| Core.RevertQuiet | src/waifu/core.py:203-204 | without its notices the revert is the REVERT wait and then the activation of the caller's window, nothing else |
| Core.RunAutogui | src/waifu/core.py:243-252 | the run fails with DiscordNotOpenError exactly when no window qualifies; otherwise it is focus, navigation, rolling and, when configured, the revert, with the first qualifying window |
| Core.RunTyped | src/waifu/core.py:246-252 | a run types the query, then num roll commands, then the daily commands when asked, and nothing else |
| Core.RunWaits | src/waifu/core.py:246-252 | a run waits ACTION four times, ROLLING once per roll and after "$daily", and REVERT only when revert is set and a caller window exists |
| Core.RunWindowOps | src/waifu/core.py:246-252 | a run minimizes, maximizes and activates Discord, and at the end activates the caller's window exactly when reverting |
| Core.RunSilent | src/waifu/core.py:102-208 | with verbose off, a run prints no verbose-gated message |
| Gate.AwaitReady | src/waifu/core.py:53-70 | the wait sleeps first and prints the lost-focus notice at most once, only when Discord is not active after the sleep; it returns at the first poll that is unpaused with Discord active and stays blocked when no poll is |
| Gate.Toggle | src/waifu/core.py:29-44 | the flag flips; pausing only prints; resuming with Discord active only prints; resuming otherwise refocuses the first Discord window and then waits SETTLE, or raises DiscordNotOpenError when there is none |
| Gate.ToggleTwice | src/waifu/core.py:36 | two presses restore the flag, and pausing only prints the pause notice |
| Gate.ToggleNeverTypes | src/waifu/core.py:36-44 | pausing and resuming never type anything |
| Gate.ToggleWindowOps | src/waifu/core.py:36-44 | window operations happen exactly on a resume that finds Discord inactive while a Discord window exists |
| Keystrokes.PacedNavigation | src/keystrokes.py:50-65 | the paced navigation keys are esc, ctrl+k, the query, esc, each followed by an ACTION wait |
| Keystrokes.NavigateIsUngated | src/keystrokes.py:31-69 | the old navigation equals the current engine's verbose navigation with every gated wait made a plain sleep |
| Keystrokes.RollsAreUngated | src/keystrokes.py:86-91 | the old roll loop equals the current engine's verbose loop with the waits made plain sleeps |
| Keystrokes.StartRollingIsUngated | src/keystrokes.py:72-98 | the old rolling equals the current engine's verbose rolling with the waits made plain sleeps, as structured messages |
| Keystrokes.StartRollingTyped | src/keystrokes.py:86-97 | exactly num roll commands are typed, then the daily commands only when asked and only after every roll |
| Keystrokes.StartRollingPrints | src/keystrokes.py:85-98 | the start line, a progress line for every attempt, the finished line always, and the daily line when asked |
| Keystrokes.StartRollingSleeps | src/keystrokes.py:86-97 | one ROLLING sleep per roll and one between "$daily" and "$dk"; no gated wait at all |
| Keystrokes.RollsEffects | src/keystrokes.py:86-91 | the old roll loop types num roll commands, prints num progress lines and sleeps ROLLING num times |
| Keystrokes.NoSleepInRolling | src/waifu/core.py:150-181 | the current engine's rolling never calls a plain sleep |
| Keystrokes.NoRollsStillFinishes | src/keystrokes.py:86-92 | with num <= 0 no roll command is typed, but the finished line is still printed |
| Keystrokes.NavigateTyped | src/keystrokes.py:43-65 | the old navigation types the '#'-normalised query once and sleeps ACTION four times |
| Original.OpenDiscordEffects | test/original.py:62-75 | the first window in the list is maximized and activated, never minimized; with no window the application is launched and LOAD_WAITING slept; nothing is typed |
| Original.NoTitleFilter | test/original.py:64-69 | a non-Discord title such as "Discord Updater" is still focused, and an empty list launches the application, where the current engine raises in both cases |
| Original.NavigateEffects | test/original.py:83-98 | the channel is typed verbatim with a newline, after three ACTION sleeps in all, and the focus notice names the channel |
| Original.NavigateSleeps | test/original.py:86-96 | navigation sleeps ACTION exactly three times |
| Original.NavigateDiffersFromCore | test/original.py:91 | for a channel without '#', the original types it bare while the current engine adds '#' |
| Original.StartRollingMovesFirst | test/original.py:101-110 | the cursor moves to the claim coordinate first and only once |
| Original.StartRollingTyped | test/original.py:101-116 | exactly num roll commands are typed, then the daily commands when asked |
| Original.RollsNeverMove | test/original.py:107-110 | the roll loop never moves the cursor |
| Original.MainEffects | test/original.py:119-133 | the whole script types the channel as given, then num roll commands, then the daily commands when asked |
| Original.MainEndsAnnounced | test/original.py:133 | the script's last action is the termination notice |
| Text.RemovePrefix | src/waifu/core.py:119 | removes the prefix exactly once when present and leaves the text alone otherwise |
| Text.AnySpace | src/waifu/parser.py:28 | true exactly when some character of the text is Python whitespace |
| Text.StartsWithAny | src/waifu/parser.py:18 | true exactly when the text starts with one of the given prefixes |
| Defaults.CommandOk | src/waifu/parser.py:16-23 | a command default is valid iff it is a string that is empty or does not start with '$' or '/' |
| Defaults.ChannelOk | src/waifu/parser.py:26-33 | a channel default is valid iff it is a string with no whitespace character |
| Defaults.NumRollsOk | src/waifu/parser.py:36-42 | a num-rolls default is valid iff it is an int >= 0, and a bool passes because isinstance treats it as an int |
| Defaults.CommandExamples | src/waifu/parser.py:16-23 | "" and "wa" are accepted; "$wa", "/wa" and None are refused |
| Defaults.ChannelExamples | src/waifu/parser.py:26-33 | "" and "spam" are accepted; "waifu spam", a channel holding an ideographic space, and None are refused |
| Defaults.NumRollsExamples | src/waifu/parser.py:36-42 | 0 and True are accepted; -1, "16", 16.0 and None are refused |
| Defaults.FirstMissing | src/waifu/parser.py:73-80 | names no key exactly when all are present; otherwise the first key, in lookup order, that is absent |
| Defaults.FirstMissingKeys | src/waifu/parser.py:73-80 | looking the three defaults up in order fails on the first missing one of mudae-command, target-channel, num-rolls |
| WaifuParser.Build | src/waifu/parser.py:56-115 | a missing key is reported first; the parser is built iff every set default passes its check; otherwise the first failing key in the order command, channel, num-rolls is reported with its value |
| WaifuParser.BuildArguments | src/waifu/parser.py:87-115 | an empty default makes its argument required with no default; a set one becomes the default of an optional argument; --num is an int option and --daily always the store-true switch |
| WaifuParser.AllEmptyAllRequired | src/waifu/parser.py:87-113 | with every default empty, the parser builds and all three arguments are required |
| LegacyParser.Validate | src/parser.py:13-52 | a missing key is reported first; validation passes iff all three values pass their checks; otherwise the first failing key is reported with its value |
| LegacyParser.Build | src/parser.py:66-88 | the parser fails exactly as validation does; on success the three values become defaults verbatim and --daily is the store-true switch |
| LegacyParser.NoneRejected | src/parser.py:35-52 | a present but empty value is always refused |
| LegacyParser.AgreesWithWaifuParser | src/parser.py:13-52 | on fully set defaults, both parsers accept with the same arguments, or both refuse the same key and value |
| LegacyParser.MissingAgrees | src/parser.py:25-32 | a missing key is reported by both parsers, under the same name |
| Config.FormatCheck | src/waifu/config.py:76-104 | a non-mapping cannot be subscripted (TypeError); a mapping passes iff every schema option is present with exactly its type; otherwise the first failing option in schema order is reported |
| Config.ValidateFormat | src/waifu/config.py:89-104 | the loop over the schema, checking presence before type, gives the declarative verdict |
| Config.ExtraKeysIgnored | src/waifu/config.py:19-24 | options outside the schema change nothing |
| Config.DefaultsContentsIgnored | src/waifu/config.py:23 | what the defaults mapping holds is not inspected |
| Config.WrongTypeExample | src/waifu/config.py:100-104 | an int where a bool is expected is reported, because type identity is used, not isinstance |
| Config.WrongTypeMessage | src/waifu/config.py:101-104 | that error reads "Option 'verbose' should be type bool, got int instead" |
| Exceptions.UserConfigPath | src/waifu/exceptions.py:22 | the config path is the home directory followed by .config, waifu-roller, config.yaml |
| Exceptions.RenderUserConfigPath | src/waifu/exceptions.py:22 | the config path renders as home's anchor and components, one separator when home has components, then .config, waifu-roller and config.yaml separated by the platform separator |
| Exceptions.ConfigPathTip | src/waifu/exceptions.py:31-32 | the tip starts with the fixed prefix and home's anchor; it ends with separator, .config, separator, waifu-roller, separator, config.yaml when home has components, and is exactly prefix, anchor and that tail when it has none |
| Exceptions.TwoPartHomeTip | src/waifu/exceptions.py:22-32 | for a home of two components the tip is the prefix, the anchor, both components and the three config components, each joined by one separator |
| Exceptions.WindowsTip | src/waifu/exceptions.py:14-17 | with home C:\Users\USERNAME and separator '\' the tip names C:\Users\USERNAME\.config\waifu-roller\config.yaml, as the docstring's Windows example says |
| Exceptions.ErrorTextShape | src/waifu/exceptions.py:45-49 | messages, the empty argument and the tip joined by a separator give the messages' join, two separators and the tip; with no messages, one separator and the tip |
| Exceptions.ClassOf | src/waifu/exceptions.py:35-69 | ConfigFileError and ConfigFormatError are ConfigErrors; those two, DiscordNotOpenError and CommandError are RollerErrors; every error is an Exception |
| Exceptions.ConfigErrorText | src/waifu/exceptions.py:42-49 | raised messages render as the messages joined by newlines, then a blank line and the tip; a bare raise renders as an empty line and the tip |
| Launcher.GetExePath | src/open.py:21-43 | fails with DiscordNotFoundError exactly when no entry starts with "app-"; otherwise the path is home/AppData/Local/Discord/<first app folder>/Discord.exe |
| Launcher.SkipsOtherEntries | src/open.py:35-38 | entries ahead of the first app folder that are not app folders do not change the result |
| Launcher.FirstAppFolderWins | src/open.py:35-42 | the first app folder in listing order wins even when a later one is newer; a listing without one is the error |
| VersionFile.MatchesAtLiterally | update.py:55 | the pattern starts matching at a position iff that is a line start followed by "__version__=" or "__version__ =" (and the optional space after '=' is absorbed by ".*") |
| VersionFile.LineEndSpec | update.py:55 | ".*$" stops at the first newline at or after the match start, or at the end of the text |
| VersionFile.LineEndUnique | update.py:55 | that stopping point is the only newline-free run ending at a newline or the end |
| VersionFile.FindFromSpec | update.py:59 | the scan finds the first matching position, and finds none exactly when no position matches |
| VersionFile.FindFromFirst | update.py:59 | a match with no match before it is the one the scan finds |
| VersionFile.SearchLeftmost | update.py:55-59 | search returns the leftmost match, which runs to its line's end, and nothing exactly when no position matches |
| VersionFile.TargetFacts | update.py:59-69 | the replaced span starts at a line start with no match above it and ends at a newline or the end |
| VersionFile.UpdateCases | update.py:59-72 | with no match the line is appended with no newline before it; otherwise the text before and after the first match is kept around the new line |
| VersionFile.SamePrefixSameMatches | update.py:55 | whether the pattern matches above a line start depends only on the text above it |
| VersionFile.VersionLineShape | update.py:52-55 | the written line holds no newline when the version has none, and the pattern accepts it |
| VersionFile.SplicedLineFound | update.py:55-69 | a newline-free line the pattern accepts, spliced over a whole line with no match above, is what search finds next time |
| VersionFile.FirstMatch | update.py:55-59 | a match with none before it is the span search returns |
| VersionFile.UpdateFindsLine | update.py:50-72 | after the update, search finds exactly the written line, at the place it was written |
| VersionFile.SpliceFindsLine | update.py:59-69 | splicing any accepted newline-free line over the target makes it the match |
| VersionFile.SpliceHoldsLine | update.py:69 | the spliced text holds the line at the target's start |
| VersionFile.UpdateIdempotent | update.py:50-72 | running the update twice with the same version gives the same content as once, whenever a match exists or the content ends at a line break |
| VersionFile.UpdateKeepsRest | update.py:68-69 | only the first match is replaced: the text before it and everything after its line's end are unchanged |
| VersionFile.UnterminatedAppend | update.py:62-65 | for a newline-free version, content without a match and without a final newline gets the line glued to its last line, so the pattern still finds nothing and a second run appends again |
| VersionFile.NoMatchAcrossEnd | update.py:55 | appending text that starts with the version name after a non-matching position leaves that position non-matching |
| VersionFile.SingleLineNoMatch | update.py:55 | a single line not starting with '_' never matches |
| VersionFile.PatternExamples | update.py:55 | "__version__=" and "__version__ =" match; two spaces, indentation or an annotation do not |
| BuildUpdate.LocateFrom | build/update.py:46-53 | the first step named "Dynamic Badges" is found, with every step before it readable and differently named; the ValueError is raised exactly when every step is another |
| BuildUpdate.LocateStep | build/update.py:45-53 | only a list of steps can yield the badge step, which is the first one named "Dynamic Badges" |
| BuildUpdate.Locate | build/update.py:45-57 | on success the route runs jobs, update-badges, steps, the badge step and its with-mapping, and the version is meta["version"] |
| BuildUpdate.UpdateBadge | build/update.py:38-60 | the update succeeds exactly when the route exists and the step's with is a mapping |
| BuildUpdate.BadgeFrame | build/update.py:57 | only with.message of the badge step changes, to the version: every other job, step and field stays as it was |
| BuildUpdate.BadgeFound | build/update.py:45-57 | after the update the badge step is found in the same place and already shows the version |
| BuildUpdate.BadgeUpToDate | build/update.py:56-57 | a workflow whose badge already shows the version is left exactly as it is |
| BuildUpdate.BadgeIdempotent | build/update.py:38-60 | running the badge update twice with the same metadata gives the same workflow as once |
| BuildUpdate.LocateSame | build/update.py:46-48 | changing only the badge step, while keeping its name, keeps the search result |
| BuildUpdate.BadgeNotFound | build/update.py:46-53 | when no step carries the name, the update raises the ValueError before anything is written |
| BuildUpdate.RefLength | build/update.py:73 | the `%(name)s` reference at the front of a value is recognised exactly when it has the shape `%(`, a non-empty name without ')', `)s` |
| BuildUpdate.NoPercentUnchanged | build/update.py:73 | removing escapes and references leaves a value without '%' as it is |
| BuildUpdate.PlainVersionAccepted | build/update.py:73 | configparser stores any version without '%' |
| BuildUpdate.LonePercentRefused | build/update.py:73 | "1.0%" is refused: a lone '%' is invalid interpolation syntax |
| BuildUpdate.EmptyNameRefused | build/update.py:73 | "%()s" is refused: a reference needs a name |
| BuildUpdate.UnterminatedRefused | build/update.py:73 | "%(v)" is refused: a reference ends in `)s` |
| BuildUpdate.EscapeAccepted | build/update.py:73 | "1%%" is stored: `%%` is an escaped '%' |
| BuildUpdate.ReferenceAccepted | build/update.py:73 | "%(v)s" is stored: a complete reference is valid syntax |
| BuildUpdate.UpdateSetup | build/update.py:65-79 | only metadata.version changes; the version is looked up first; a missing metadata section is a KeyError, a non-string version a TypeError and a version with invalid '%' syntax a ValueError |
| BuildUpdate.SetupRoundTrip | build/update.py:72-73 | the version stored in the parsed configuration is what update.py's get_version looks up |
| BuildUpdate.InitAsPackageScript | build/update.py:82-102 | the content is update.py's rewrite, and the success message is printed exactly when a line matched |
| BuildUpdate.RunWritesInOrder | build/update.py:105-119 | a failing updater leaves its own and later files untouched but earlier ones written; on success the parsed setup.cfg holds the version and the init file carries the rewrite |

## Left out

- The abort hotkey, the interrupt handler, `_raise_corner_abort` and the pause-key registration are not modelled. They are signal handling and listener threads, which is concurrency.
- src/main.py and src/waifu/main.py are left out: they only orchestrate, load YAML and prompt.
- `_set_up_config_file`, `load_config`, the configuration template and every file read or write are left out. Only the content-to-content transformations are modelled.
- The YAML round-trip formatting of ruamel and the configparser output format are not modelled.
- configparser's case folding of option names and its DEFAULT section are not modelled.
- argparse's own `parse_args` is left out. The parser models stop at the argument specification.
- pyautogui and pygetwindow effects are actions in a trace: real focus, real typing and the fail-safe.
- The float values of the cooldowns are not modelled. Delays are the named kinds only.
- Console output is a structured message, not the rendered rich markup. The bad-value error messages of both parsers keep the key and the value instead of Python's `repr` text.
- Gate.AwaitReady: the busy loop is modelled on a finite schedule of observations. A schedule that never becomes ready ends as still blocked, where the program spins forever.
- `_start_discord` and `_move_to_discord` in src/open.py are not modelled: nothing calls them, since the body of `open_discord` that would is commented out.
- `os.listdir` failing on a missing directory is not modelled: the listing is a parameter.
- `sys.exit` and the informational prints of the update scripts are not modelled, except whether build/update.py's `update_init` prints its success message.
- BuildUpdate.RunUpdaters: `str()` of a non-string version in `update_init` is not modelled. It cannot happen there, because `update_setup` has already refused such a version.
- Exceptions.ClassOf: a `TypeError` carries only the type that could not be subscripted or iterated, not Python's message text.
- Original.OpenDiscordEffects: the hard-coded application path is a constant, and `os.startfile` is a `StartApp` action.
- Gate.Toggle, Core.LocateDiscord, Core.OpenDiscord, Core.RunAutogui: `DiscordNotOpenError` carries the candidate titles, not the rendered message text. The source renders the `repr` of the window list, or '<empty>' when it is empty.
- Core.NavigatePrints, Core.AttemptPrints, Core.RollingPrints, Core.RunSilent: their traces hold only the verbose-gated messages. Each `Wait` is a single action, so the lost-focus notice that `_wait` prints whatever `verbose` is (Gate.AwaitReady), and the pause and resume notices of the pause key (Gate.Toggle), are not in these traces. With verbose off, a run can still print those notices.
- Keystrokes.StartRollingIsUngated: messages are compared as structured values. The old engine prints "Finished rolling" and "Finished running daily commands" without the final period that the current engine adds. The roll loop (Keystrokes.RollsAreUngated) prints the same texts in both engines.
- BuildUpdate.BadgeFrame: the workflow is a tree. YAML anchors and aliases, through which the round-trip loader shares one mapping between several places, are not modelled; with them, every alias of the badge step's `with` mapping changes too.
- BuildUpdate.UpdateSetup: the `ValueError` carries a fixed message, without the `repr` of the value and the position of the first offending '%'.
- BuildUpdate.SetupRoundTrip: the round trip is stated on the parsed configuration, not on the file. Writing setup.cfg and reading it back are not modelled. On the way back, configparser interpolates `%%` to '%' and `%(name)s` to another option's value, and the file parser strips the value's surrounding whitespace. So only a version without '%', without surrounding whitespace and without a line break reads back from the file exactly as written.
- VersionFile.GetVersion: it reads the parsed value as stored; configparser's interpolation on lookup is not modelled.
- LegacyParser.Validate: src/parser.py raises the `ConfigFormatError` of src/exceptions.py (lines 23-25), which has no configuration-path tip. The model shares the `ConfigFormatError` constructor with the current parser, but `Exceptions.ConfigErrorText` renders only the current class of src/waifu/exceptions.py.
- VersionFile.UpdateIdempotent: it is stated for content that has a match or ends at a line break, and for versions without a newline. Content without a match whose last line is unterminated gets the line appended to that last line, and then a second run appends again (VersionFile.UnterminatedAppend).
