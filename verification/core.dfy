/** The automation engine of src/waifu/core.py: locating and focusing the
    Discord window and the traces of navigation, rolling, the daily extras,
    the window revert and `run_autogui`. A `Wait(kind)` in a trace stands for
    one call of `_wait`, whose polling is modelled in the Gate module. */
module Core {
  import opened Outcomes
  import opened Seqs
  import opened Text
  import opened Actions
  import opened Exceptions

  const DiscordTitle := "Discord"
  const DiscordSuffix := "- Discord"

  /** `_is_discord_active()`, given the active window's title (None when no window is active). */
  predicate IsDiscordTitle(title: Option<string>) {
    title.Some? && (title.value == DiscordTitle || EndsWith(title.value, DiscordSuffix))
  }

  predicate IsDiscordWindow(w: Window) {
    IsDiscordTitle(Some(w.title))
  }

  lemma TitleExamples()
    ensures IsDiscordTitle(Some("Discord"))
    ensures IsDiscordTitle(Some("#general - Discord"))
    ensures !IsDiscordTitle(Some("Discordian"))
    ensures !IsDiscordTitle(Some("Discord - Notepad"))
    ensures !IsDiscordTitle(None)
  {
    assert "#general - Discord"[9..] == DiscordSuffix;
    assert "Discordian"[1..] != DiscordSuffix;
    assert "Discord - Notepad"[8..] != DiscordSuffix;
  }

  /** `i` is the position of the first window whose title the locator accepts. */
  predicate IsFirstDiscord(windows: seq<Window>, i: int) {
    0 <= i < |windows| && IsDiscordWindow(windows[i])
    && forall j :: 0 <= j < i ==> !IsDiscordWindow(windows[j])
  }

  function Titles(windows: seq<Window>): seq<string> {
    seq(|windows|, i requires 0 <= i < |windows| => windows[i].title)
  }

  /** The window `_open_discord` selects out of `getWindowsWithTitle("Discord")`. */
  function LocateDiscord(windows: seq<Window>): (r: Result<Window, Error>)
    ensures r.Ok? <==> exists i :: 0 <= i < |windows| && IsDiscordWindow(windows[i])
    ensures r.Ok? ==> exists i :: IsFirstDiscord(windows, i) && windows[i] == r.value
    ensures r.Err? ==> r.error == DiscordNotOpenError(Titles(windows))
  {
    match FirstIndex(windows, IsDiscordWindow)
    case Some(i) =>
      assert IsFirstDiscord(windows, i);
      Ok(windows[i])
    case None => Err(DiscordNotOpenError(Titles(windows)))
  }

  /** minimize, maximize, activate: the order that works around the activation race. */
  function FocusTrace(w: Window): seq<Action> {
    [Minimize(w), Maximize(w), Activate(w)]
  }

  /** The effects of `_open_discord` once it has chosen the window `w`. */
  function Focus(w: Window, verbose: bool): seq<Action> {
    FocusTrace(w) + Say(verbose, MovedToDiscord)
  }

  /** `_open_discord(verbose)`: focus the first accepted window, or raise. */
  function OpenDiscord(windows: seq<Window>, verbose: bool): (r: Result<seq<Action>, Error>)
    ensures r.Err? <==> forall i :: 0 <= i < |windows| ==> !IsDiscordWindow(windows[i])
    ensures r.Err? ==> r.error == DiscordNotOpenError(Titles(windows))
    ensures r.Ok? ==> exists i :: IsFirstDiscord(windows, i) && r.value == Focus(windows[i], verbose)
  {
    var w :- LocateDiscord(windows);
    Ok(Focus(w, verbose))
  }

  lemma Collect3<T>(a: seq<Action>, b: seq<Action>, c: seq<Action>, pick: Action -> Option<T>)
    ensures Collect(a + b + c, pick) == Collect(a, pick) + Collect(b, pick) + Collect(c, pick)
  {
    CollectAppend(a, b, pick);
    CollectAppend(a + b, c, pick);
  }

  lemma Collect4<T>(a: seq<Action>, b: seq<Action>, c: seq<Action>, d: seq<Action>, pick: Action -> Option<T>)
    ensures Collect(a + b + c + d, pick) == Collect(a, pick) + Collect(b, pick) + Collect(c, pick) + Collect(d, pick)
  {
    Collect3(a, b, c, pick);
    CollectAppend(a + b + c, d, pick);
  }

  /** An optional console line contributes nothing to a projection that ignores it. */
  lemma SayIgnored<T>(verbose: bool, m: Msg, pick: Action -> Option<T>)
    requires pick(Print(m)).None?
    ensures Collect(Say(verbose, m), pick) == []
  {
    CollectNone(Say(verbose, m), pick);
  }

  lemma SayPrints(verbose: bool, m: Msg)
    ensures Prints(Say(verbose, m)) == (if verbose then [m] else [])
  {
    if verbose {
      CollectOne([Print(m)], MessagePrinted, 0);
    }
  }

  /** A trace between two optional console lines. */
  function Framed(verbose: bool, before: Msg, body: seq<Action>, after: Msg): seq<Action> {
    Say(verbose, before) + body + Say(verbose, after)
  }

  /** A projection that ignores both console lines sees the body only. */
  lemma FramedIgnored<T>(verbose: bool, before: Msg, body: seq<Action>, after: Msg, pick: Action -> Option<T>)
    requires pick(Print(before)).None? && pick(Print(after)).None?
    ensures Collect(Framed(verbose, before, body, after), pick) == Collect(body, pick)
  {
    Collect3(Say(verbose, before), body, Say(verbose, after), pick);
    SayIgnored(verbose, before, pick);
    SayIgnored(verbose, after, pick);
  }

  /** Around a print-free body, the console shows exactly the two lines, when verbose. */
  lemma FramedPrints(verbose: bool, before: Msg, body: seq<Action>, after: Msg)
    requires Prints(body) == []
    ensures Prints(Framed(verbose, before, body, after)) == (if verbose then [before, after] else [])
  {
    Collect3(Say(verbose, before), body, Say(verbose, after), MessagePrinted);
    SayPrints(verbose, before);
    SayPrints(verbose, after);
  }

  /** Around a print-free body, silencing the console leaves the body. */
  lemma FramedQuiet(verbose: bool, before: Msg, body: seq<Action>, after: Msg)
    requires Quiet(body) == body
    ensures Quiet(Framed(verbose, before, body, after)) == body
    ensures Framed(false, before, body, after) == body
  {
    FramedIgnored(verbose, before, body, after, NonPrint);
    assert Framed(false, before, body, after) == [] + body + [];
  }

  /** Focusing touches only windows: three window operations, nothing typed, no wait. */
  lemma FocusEffects(w: Window, verbose: bool)
    ensures WindowOps(Focus(w, verbose)) == FocusTrace(w)
    ensures Typed(Focus(w, verbose)) == [] && Waits(Focus(w, verbose)) == []
    ensures Prints(Focus(w, verbose)) == (if verbose then [MovedToDiscord] else [])
  {
    var f := FocusTrace(w);
    var say := Say(verbose, MovedToDiscord);
    CollectAppend(f, say, WindowOp);
    CollectAll(f, WindowOp);
    SayIgnored(verbose, MovedToDiscord, WindowOp);
    CollectAppend(f, say, TextTyped);
    CollectNone(f, TextTyped);
    SayIgnored(verbose, MovedToDiscord, TextTyped);
    CollectAppend(f, say, GatedDelay);
    CollectNone(f, GatedDelay);
    SayIgnored(verbose, MovedToDiscord, GatedDelay);
    CollectAppend(f, say, MessagePrinted);
    CollectNone(f, MessagePrinted);
    SayPrints(verbose, MovedToDiscord);
  }

  /** The quick-switcher query: `"#" + channel.removeprefix("#")`. */
  function NavigationQuery(channel: string): (q: string)
    ensures |q| >= 1 && q[0] == '#'
    ensures |channel| > 0 && channel[0] == '#' ==> q == channel
    ensures !(|channel| > 0 && channel[0] == '#') ==> q == "#" + channel
  {
    "#" + RemovePrefix(channel, "#")
  }

  lemma NavigationQueryIdempotent(channel: string)
    ensures NavigationQuery(NavigationQuery(channel)) == NavigationQuery(channel)
  {
  }

  /** The four navigation keystrokes: esc, ctrl+k, the query with Enter, esc. */
  function NavigationKeys(query: string): seq<Action> {
    [Hotkey(["esc"]), Hotkey(["ctrl", "k"]), Type(query + "\n", true), Hotkey(["esc"])]
  }

  /** `_navigate_to_channel(channel, verbose)`: the keys, each followed by an ACTION wait. */
  function Navigate(channel: string, verbose: bool): seq<Action> {
    var q := NavigationQuery(channel);
    Framed(verbose, NavigatingWith(q), Paced(NavigationKeys(q), ActionCooldown), FinishedNavigating)
  }

  /** The paced navigation keys type the query once and touch no window. */
  lemma NavigationKeysEffects(q: string)
    ensures Typed(Paced(NavigationKeys(q), ActionCooldown)) == [q + "\n"]
    ensures Waits(Paced(NavigationKeys(q), ActionCooldown)) == Repeat(4, ActionCooldown)
    ensures Prints(Paced(NavigationKeys(q), ActionCooldown)) == []
    ensures WindowOps(Paced(NavigationKeys(q), ActionCooldown)) == []
    ensures Quiet(Paced(NavigationKeys(q), ActionCooldown)) == Paced(NavigationKeys(q), ActionCooldown)
  {
    var keys := NavigationKeys(q);
    PacedOthers(keys, ActionCooldown, TextTyped);
    CollectOne(keys, TextTyped, 2);
    PacedWaits(keys, ActionCooldown);
    PacedOthers(keys, ActionCooldown, MessagePrinted);
    CollectNone(keys, MessagePrinted);
    PacedOthers(keys, ActionCooldown, WindowOp);
    CollectNone(keys, WindowOp);
    PacedQuiet(keys, ActionCooldown);
  }

  lemma NavigateTyped(channel: string, verbose: bool)
    ensures Typed(Navigate(channel, verbose)) == [NavigationQuery(channel) + "\n"]
  {
    var q := NavigationQuery(channel);
    NavigationKeysEffects(q);
    FramedIgnored(verbose, NavigatingWith(q), Paced(NavigationKeys(q), ActionCooldown), FinishedNavigating, TextTyped);
  }

  lemma NavigateWaits(channel: string, verbose: bool)
    ensures Waits(Navigate(channel, verbose)) == Repeat(4, ActionCooldown)
  {
    var q := NavigationQuery(channel);
    NavigationKeysEffects(q);
    FramedIgnored(verbose, NavigatingWith(q), Paced(NavigationKeys(q), ActionCooldown), FinishedNavigating, GatedDelay);
  }

  lemma NavigatePrints(channel: string, verbose: bool)
    ensures Prints(Navigate(channel, verbose)) ==
      (if verbose then [NavigatingWith(NavigationQuery(channel)), FinishedNavigating] else [])
  {
    var q := NavigationQuery(channel);
    NavigationKeysEffects(q);
    FramedPrints(verbose, NavigatingWith(q), Paced(NavigationKeys(q), ActionCooldown), FinishedNavigating);
  }

  /** Verbosity adds console lines only: the quiet trace is the silent one. */
  lemma NavigateQuiet(channel: string, verbose: bool)
    ensures Quiet(Navigate(channel, verbose)) == Navigate(channel, false)
    ensures Navigate(channel, false) == Paced(NavigationKeys(NavigationQuery(channel)), ActionCooldown)
  {
    var q := NavigationQuery(channel);
    NavigationKeysEffects(q);
    FramedQuiet(verbose, NavigatingWith(q), Paced(NavigationKeys(q), ActionCooldown), FinishedNavigating);
  }

  lemma NavigateWindowOps(channel: string, verbose: bool)
    ensures WindowOps(Navigate(channel, verbose)) == []
  {
    var q := NavigationQuery(channel);
    NavigationKeysEffects(q);
    FramedIgnored(verbose, NavigatingWith(q), Paced(NavigationKeys(q), ActionCooldown), FinishedNavigating, WindowOp);
  }

  /** What one roll types: `f"${command}\n"`. */
  function RollCommand(command: string): string {
    "$" + command + "\n"
  }

  /** The number of values in `range(k, num + 1)`. */
  function AttemptCount(k: int, num: int): nat {
    if k <= num then num - k + 1 else 0
  }

  /** The progress lines `(k/num)`, `(k+1/num)`, ..., `(num/num)`. */
  function ProgressFrom(k: int, num: int): seq<Msg> {
    seq(AttemptCount(k, num), i => RollProgress(k + i, num))
  }

  /** One pass of the roll loop: type the command, report progress when verbose, wait ROLLING. */
  function Attempt(command: string, k: int, num: int, verbose: bool): seq<Action> {
    [Type(RollCommand(command), false)] + Say(verbose, RollProgress(k, num)) + [Wait(RollingCooldown)]
  }

  /** Attempts `k`..`num` of the roll loop. */
  function Attempts(command: string, k: int, num: int, verbose: bool): seq<Action>
    decreases num - k + 1
  {
    if k > num then [] else Attempt(command, k, num, verbose) + Attempts(command, k + 1, num, verbose)
  }

  lemma {:induction false} AttemptsTyped(command: string, k: int, num: int, verbose: bool)
    ensures Typed(Attempts(command, k, num, verbose)) == Repeat(AttemptCount(k, num), RollCommand(command))
    decreases num - k + 1
  {
    if k <= num {
      var a := Attempt(command, k, num, verbose);
      AttemptsTyped(command, k + 1, num, verbose);
      CollectAppend(a, Attempts(command, k + 1, num, verbose), TextTyped);
      CollectOne(a, TextTyped, 0);
      RepeatSucc(AttemptCount(k + 1, num), RollCommand(command));
    }
  }

  lemma {:induction false} AttemptsWaits(command: string, k: int, num: int, verbose: bool)
    ensures Waits(Attempts(command, k, num, verbose)) == Repeat(AttemptCount(k, num), RollingCooldown)
    decreases num - k + 1
  {
    if k <= num {
      var a := Attempt(command, k, num, verbose);
      AttemptsWaits(command, k + 1, num, verbose);
      CollectAppend(a, Attempts(command, k + 1, num, verbose), GatedDelay);
      CollectOne(a, GatedDelay, |a| - 1);
      RepeatSucc(AttemptCount(k + 1, num), RollingCooldown);
    }
  }

  /** Progress lines `(i/num)` appear in order, one per attempt, only when verbose. */
  lemma {:induction false} AttemptsPrints(command: string, k: int, num: int, verbose: bool)
    ensures Prints(Attempts(command, k, num, verbose)) == (if verbose then ProgressFrom(k, num) else [])
    decreases num - k + 1
  {
    if k <= num {
      var a := Attempt(command, k, num, verbose);
      var rest := Attempts(command, k + 1, num, verbose);
      AttemptsPrints(command, k + 1, num, verbose);
      CollectAppend(a, rest, MessagePrinted);
      AttemptPrints(command, k, num, verbose);
      ProgressSucc(k, num);
    }
  }

  lemma AttemptPrints(command: string, k: int, num: int, verbose: bool)
    ensures Prints(Attempt(command, k, num, verbose)) == (if verbose then [RollProgress(k, num)] else [])
  {
    var a := Attempt(command, k, num, verbose);
    if verbose {
      CollectOne(a, MessagePrinted, 1);
    } else {
      CollectNone(a, MessagePrinted);
    }
  }

  lemma ProgressSucc(k: int, num: int)
    requires k <= num
    ensures ProgressFrom(k, num) == [RollProgress(k, num)] + ProgressFrom(k + 1, num)
  {
  }

  lemma {:induction false} AttemptsQuiet(command: string, k: int, num: int, verbose: bool)
    ensures Quiet(Attempts(command, k, num, verbose)) == Attempts(command, k, num, false)
    ensures WindowOps(Attempts(command, k, num, verbose)) == []
    decreases num - k + 1
  {
    if k <= num {
      var a := Attempt(command, k, num, verbose);
      var rest := Attempts(command, k + 1, num, verbose);
      AttemptsQuiet(command, k + 1, num, verbose);
      CollectAppend(a, rest, NonPrint);
      Collect3([Type(RollCommand(command), false)], Say(verbose, RollProgress(k, num)), [Wait(RollingCooldown)], NonPrint);
      CollectAll([Type(RollCommand(command), false)], NonPrint);
      CollectAll([Wait(RollingCooldown)], NonPrint);
      SayIgnored(verbose, RollProgress(k, num), NonPrint);
      CollectAppend(a, rest, WindowOp);
      CollectNone(a, WindowOp);
    }
  }

  /** Without progress lines the roll loop alternates the typed command and a ROLLING wait. */
  lemma {:induction false} QuietAttemptsAlternate(command: string, k: int, num: int)
    ensures |Attempts(command, k, num, false)| == 2 * AttemptCount(k, num)
    ensures forall i :: 0 <= i < AttemptCount(k, num) ==>
      Attempts(command, k, num, false)[2 * i] == Type(RollCommand(command), false)
      && Attempts(command, k, num, false)[2 * i + 1] == Wait(RollingCooldown)
    decreases num - k + 1
  {
    if k <= num {
      var t := Attempts(command, k, num, false);
      var rest := Attempts(command, k + 1, num, false);
      QuietAttemptsAlternate(command, k + 1, num);
      assert t == [Type(RollCommand(command), false), Wait(RollingCooldown)] + rest;
      forall i | 0 <= i < AttemptCount(k, num)
        ensures t[2 * i] == Type(RollCommand(command), false) && t[2 * i + 1] == Wait(RollingCooldown)
      {
        if i > 0 {
          assert t[2 * i] == rest[2 * (i - 1)];
          assert t[2 * i + 1] == rest[2 * (i - 1) + 1];
        }
      }
    }
  }

  /** `$daily`, a ROLLING wait, `$dk`: no wait follows `$dk`. */
  function DailyKeys(): seq<Action> {
    [Type("$daily\n", false), Wait(RollingCooldown), Type("$dk\n", false)]
  }

  function DailyExtras(verbose: bool): seq<Action> {
    DailyKeys() + Say(verbose, FinishedDaily)
  }

  /** The daily commands, when asked for. */
  function Extras(daily: bool, verbose: bool): seq<Action> {
    if daily then DailyExtras(verbose) else []
  }

  lemma ExtrasTyped(daily: bool, verbose: bool)
    ensures Typed(Extras(daily, verbose)) == (if daily then ["$daily\n", "$dk\n"] else [])
  {
    if daily {
      CollectAppend(DailyKeys(), Say(verbose, FinishedDaily), TextTyped);
      SayIgnored(verbose, FinishedDaily, TextTyped);
      CollectAppend([Type("$daily\n", false), Wait(RollingCooldown)], [Type("$dk\n", false)], TextTyped);
      assert DailyKeys() == [Type("$daily\n", false), Wait(RollingCooldown)] + [Type("$dk\n", false)];
      CollectOne([Type("$daily\n", false), Wait(RollingCooldown)], TextTyped, 0);
      CollectOne([Type("$dk\n", false)], TextTyped, 0);
    }
  }

  /** The one wait of the extras sits between "$daily" and "$dk", and nothing but
      the notice follows "$dk". */
  lemma ExtrasWaits(daily: bool, verbose: bool)
    ensures Waits(Extras(daily, verbose)) == (if daily then [RollingCooldown] else [])
    ensures Quiet(Extras(daily, verbose)) ==
      (if daily then [Type("$daily\n", false), Wait(RollingCooldown), Type("$dk\n", false)] else [])
  {
    if daily {
      CollectAppend(DailyKeys(), Say(verbose, FinishedDaily), NonPrint);
      SayIgnored(verbose, FinishedDaily, NonPrint);
      CollectAll(DailyKeys(), NonPrint);
      CollectAppend(DailyKeys(), Say(verbose, FinishedDaily), GatedDelay);
      SayIgnored(verbose, FinishedDaily, GatedDelay);
      CollectOne(DailyKeys(), GatedDelay, 1);
    }
  }

  /** Dropping empty pieces, proved away from any large context. */
  lemma SkipEmpty<T>(a: seq<T>, b: seq<T>)
    ensures [] + a + [] + b == a + b
  {
  }

  /** `_start_rolling(command, num, daily, verbose)` */
  function Rolling(command: string, num: int, daily: bool, verbose: bool): seq<Action> {
    Say(verbose, StartingToRoll(command))
    + Attempts(command, 1, num, verbose)
    + Say(verbose, FinishedRolling)
    + Extras(daily, verbose)
  }

  /** Exactly `num` roll commands (none when `num <= 0`), then the daily commands after all rolls. */
  lemma RollingTyped(command: string, num: int, daily: bool, verbose: bool)
    ensures Typed(Rolling(command, num, daily, verbose)) ==
      Repeat(AttemptCount(1, num), RollCommand(command)) + (if daily then ["$daily\n", "$dk\n"] else [])
  {
    var reps := Repeat(AttemptCount(1, num), RollCommand(command));
    var dailies: seq<string> := if daily then ["$daily\n", "$dk\n"] else [];
    SayIgnored(verbose, StartingToRoll(command), TextTyped);
    SayIgnored(verbose, FinishedRolling, TextTyped);
    AttemptsTyped(command, 1, num, verbose);
    ExtrasTyped(daily, verbose);
    Phases(Say(verbose, StartingToRoll(command)), Attempts(command, 1, num, verbose),
      Say(verbose, FinishedRolling), Extras(daily, verbose), TextTyped, [], reps, [], dailies);
    SkipEmpty(reps, dailies);
  }

  lemma RollingWaits(command: string, num: int, daily: bool, verbose: bool)
    ensures Waits(Rolling(command, num, daily, verbose)) ==
      Repeat(AttemptCount(1, num), RollingCooldown) + (if daily then [RollingCooldown] else [])
  {
    var reps := Repeat(AttemptCount(1, num), RollingCooldown);
    var dailies: seq<DelayKind> := if daily then [RollingCooldown] else [];
    SayIgnored(verbose, StartingToRoll(command), GatedDelay);
    SayIgnored(verbose, FinishedRolling, GatedDelay);
    AttemptsWaits(command, 1, num, verbose);
    ExtrasWaits(daily, verbose);
    Phases(Say(verbose, StartingToRoll(command)), Attempts(command, 1, num, verbose),
      Say(verbose, FinishedRolling), Extras(daily, verbose), GatedDelay, [], reps, [], dailies);
    SkipEmpty(reps, dailies);
  }

  lemma RollingPrints(command: string, num: int, daily: bool, verbose: bool)
    ensures Prints(Rolling(command, num, daily, verbose)) ==
      (if verbose
       then [StartingToRoll(command)] + ProgressFrom(1, num) + [FinishedRolling]
            + (if daily then [FinishedDaily] else [])
       else [])
  {
    var start := Say(verbose, StartingToRoll(command));
    var loop := Attempts(command, 1, num, verbose);
    var finish := Say(verbose, FinishedRolling);
    var extras := Extras(daily, verbose);
    var notice: seq<Msg> := if daily then [FinishedDaily] else [];
    SayPrints(verbose, StartingToRoll(command));
    SayPrints(verbose, FinishedRolling);
    AttemptsPrints(command, 1, num, verbose);
    ExtrasPrints(daily, verbose);
    if verbose {
      Phases(start, loop, finish, extras, MessagePrinted, [StartingToRoll(command)], ProgressFrom(1, num), [FinishedRolling], notice);
    } else {
      Phases(start, loop, finish, extras, MessagePrinted, [], [], [], []);
    }
  }

  lemma ExtrasPrints(daily: bool, verbose: bool)
    ensures Prints(Extras(daily, verbose)) == (if daily && verbose then [FinishedDaily] else [])
  {
    if daily {
      CollectAppend(DailyKeys(), Say(verbose, FinishedDaily), MessagePrinted);
      SayPrints(verbose, FinishedDaily);
      CollectNone(DailyKeys(), MessagePrinted);
    }
  }

  /** With console lines removed, rolling is the alternating loop followed, when
      daily, by `$daily`, a wait and `$dk` as the very last actions. */
  lemma RollingQuiet(command: string, num: int, daily: bool, verbose: bool)
    ensures Quiet(Rolling(command, num, daily, verbose)) ==
      Attempts(command, 1, num, false) + (if daily then DailyKeys() else [])
  {
    var start := Say(verbose, StartingToRoll(command));
    var loop := Attempts(command, 1, num, verbose);
    var finish := Say(verbose, FinishedRolling);
    var extras := Extras(daily, verbose);
    assert Rolling(command, num, daily, verbose) == start + loop + finish + extras;
    Collect4(start, loop, finish, extras, NonPrint);
    SayIgnored(verbose, StartingToRoll(command), NonPrint);
    SayIgnored(verbose, FinishedRolling, NonPrint);
    AttemptsQuiet(command, 1, num, verbose);
    var tail := if daily then DailyKeys() else [];
    if daily {
      CollectAppend(DailyKeys(), Say(verbose, FinishedDaily), NonPrint);
      SayIgnored(verbose, FinishedDaily, NonPrint);
      CollectAll(DailyKeys(), NonPrint);
    }
    assert Quiet(extras) == tail;
    var quietLoop := Attempts(command, 1, num, false);
    calc {
      Quiet(Rolling(command, num, daily, verbose));
      Quiet(start) + Quiet(loop) + Quiet(finish) + Quiet(extras);
      [] + quietLoop + [] + tail;
      { assert [] + quietLoop + [] == quietLoop; }
      quietLoop + tail;
    }
  }

  lemma RollingWindowOps(command: string, num: int, daily: bool, verbose: bool)
    ensures WindowOps(Rolling(command, num, daily, verbose)) == []
  {
    var extras := Extras(daily, verbose);
    Collect4(Say(verbose, StartingToRoll(command)), Attempts(command, 1, num, verbose), Say(verbose, FinishedRolling), extras, WindowOp);
    SayIgnored(verbose, StartingToRoll(command), WindowOp);
    SayIgnored(verbose, FinishedRolling, WindowOp);
    AttemptsQuiet(command, 1, num, verbose);
    if daily {
      CollectAppend(DailyKeys(), Say(verbose, FinishedDaily), WindowOp);
      SayIgnored(verbose, FinishedDaily, WindowOp);
      CollectNone(DailyKeys(), WindowOp);
    }
  }

  /** `_revert_window(win, verbose)`: a REVERT wait, then activate the caller's window. */
  function RevertWindow(win: Window, verbose: bool): seq<Action> {
    Framed(verbose, RevertAnnouncement(win.title), [Wait(RevertDelay), Activate(win)], ReturnedFocus(win.title))
  }

  /** Restoring the caller's window: one REVERT wait, then one activation, nothing typed. */
  lemma RevertEffects(win: Window, verbose: bool)
    ensures Quiet(RevertWindow(win, verbose)) == [Wait(RevertDelay), Activate(win)]
    ensures Typed(RevertWindow(win, verbose)) == []
    ensures Waits(RevertWindow(win, verbose)) == [RevertDelay]
    ensures WindowOps(RevertWindow(win, verbose)) == [Activate(win)]
    ensures Prints(RevertWindow(win, verbose)) ==
      (if verbose then [RevertAnnouncement(win.title), ReturnedFocus(win.title)] else [])
  {
    var b := [Wait(RevertDelay), Activate(win)];
    var m1 := RevertAnnouncement(win.title);
    var m2 := ReturnedFocus(win.title);
    RevertQuiet(win, verbose);
    FramedIgnored(verbose, m1, b, m2, TextTyped);
    CollectNone(b, TextTyped);
    FramedIgnored(verbose, m1, b, m2, GatedDelay);
    CollectOne(b, GatedDelay, 0);
    FramedIgnored(verbose, m1, b, m2, WindowOp);
    CollectOne(b, WindowOp, 1);
    CollectNone(b, MessagePrinted);
    FramedPrints(verbose, m1, b, m2);
  }

  lemma RevertQuiet(win: Window, verbose: bool)
    ensures Quiet(RevertWindow(win, verbose)) == [Wait(RevertDelay), Activate(win)]
  {
    var b := [Wait(RevertDelay), Activate(win)];
    CollectAll(b, NonPrint);
    FramedQuiet(verbose, RevertAnnouncement(win.title), b, ReturnedFocus(win.title));
  }

  /** The arguments `run_autogui` receives from the parser and the configuration. */
  datatype Request = Request(
    command: string, channel: string, num: int, daily: bool, verbose: bool, revert: bool)

  /** Whether `run_autogui` ends by restoring the caller's window. */
  predicate Reverts(req: Request, caller: Option<Window>) {
    req.revert && caller.Some?
  }

  /** The caller's window restored at the end, when that is asked for and possible. */
  function Revert(req: Request, caller: Option<Window>): seq<Action> {
    if Reverts(req, caller) then RevertWindow(caller.value, req.verbose) else []
  }

  /** Everything `run_autogui` does once `w` is the Discord window it found. */
  function Session(req: Request, caller: Option<Window>, w: Window): seq<Action> {
    Focus(w, req.verbose)
    + Navigate(req.channel, req.verbose)
    + Rolling(req.command, req.num, req.daily, req.verbose)
    + Revert(req, caller)
  }

  /** `run_autogui`: with `caller` the window active at the start and `windows`
      what `getWindowsWithTitle("Discord")` returns. A missing Discord window
      propagates out before any keystroke. */
  function RunAutogui(req: Request, caller: Option<Window>, windows: seq<Window>): (r: Result<seq<Action>, Error>)
    ensures r.Err? <==> forall i :: 0 <= i < |windows| ==> !IsDiscordWindow(windows[i])
    ensures r.Err? ==> r.error == DiscordNotOpenError(Titles(windows))
    ensures r.Ok? ==> exists i :: (IsFirstDiscord(windows, i) && r.value == Session(req, caller, windows[i]))
  {
    var focus :- OpenDiscord(windows, req.verbose);
    Ok(focus
       + Navigate(req.channel, req.verbose)
       + Rolling(req.command, req.num, req.daily, req.verbose)
       + Revert(req, caller))
  }

  /** A projection of three consecutive phases, assembled from the projections of each. */
  lemma Phases3<T>(f: seq<Action>, n: seq<Action>, ro: seq<Action>, pick: Action -> Option<T>,
                   a: seq<T>, b: seq<T>, c: seq<T>)
    requires Collect(f, pick) == a && Collect(n, pick) == b && Collect(ro, pick) == c
    ensures Collect(f + n + ro, pick) == a + b + c
  {
    Collect3(f, n, ro, pick);
  }

  /** A projection of four consecutive phases, assembled from the projections of each. */
  lemma Phases<T>(f: seq<Action>, n: seq<Action>, ro: seq<Action>, rev: seq<Action>, pick: Action -> Option<T>,
                  a: seq<T>, b: seq<T>, c: seq<T>, d: seq<T>)
    requires Collect(f, pick) == a && Collect(n, pick) == b
    requires Collect(ro, pick) == c && Collect(rev, pick) == d
    ensures Collect(f + n + ro + rev, pick) == a + b + c + d
  {
    Collect4(f, n, ro, rev, pick);
  }

  /** Regrouping concatenations, proved away from any large context. */
  lemma Regroup<T>(a: seq<T>, b: seq<T>, c: seq<T>, d: seq<T>)
    ensures a + b + (c + d) + [] == a + b + c + d
    ensures a + (c + d) + b == a + c + d + b
    ensures a + [] + [] + b == a + b
    ensures [] + a + b == a + b
  {
  }

  /** What a successful run types: the query, `num` roll commands, then the daily commands. */
  lemma RunTyped(req: Request, caller: Option<Window>, w: Window)
    ensures Typed(Session(req, caller, w)) ==
      [NavigationQuery(req.channel) + "\n"]
      + Repeat(AttemptCount(1, req.num), RollCommand(req.command))
      + (if req.daily then ["$daily\n", "$dk\n"] else [])
  {
    FocusEffects(w, req.verbose);
    NavigateTyped(req.channel, req.verbose);
    RollingTyped(req.command, req.num, req.daily, req.verbose);
    if Reverts(req, caller) {
      RevertEffects(caller.value, req.verbose);
    }
    var query := [NavigationQuery(req.channel) + "\n"];
    var reps := Repeat(AttemptCount(1, req.num), RollCommand(req.command));
    var dailies: seq<string> := if req.daily then ["$daily\n", "$dk\n"] else [];
    Phases(Focus(w, req.verbose), Navigate(req.channel, req.verbose),
           Rolling(req.command, req.num, req.daily, req.verbose), Revert(req, caller), TextTyped,
           [], query, reps + dailies, []);
    Regroup([], query, reps, dailies);
    assert [] + query == query;
  }

  /** The gated waits of a run: four ACTION, one ROLLING per roll and after `$daily`,
      and REVERT only when the caller's window is restored. */
  lemma RunWaits(req: Request, caller: Option<Window>, w: Window)
    ensures Waits(Session(req, caller, w)) ==
      Repeat(4, ActionCooldown)
      + Repeat(AttemptCount(1, req.num), RollingCooldown)
      + (if req.daily then [RollingCooldown] else [])
      + (if Reverts(req, caller) then [RevertDelay] else [])
  {
    FocusEffects(w, req.verbose);
    NavigateWaits(req.channel, req.verbose);
    RollingWaits(req.command, req.num, req.daily, req.verbose);
    if Reverts(req, caller) {
      RevertEffects(caller.value, req.verbose);
    }
    var nav := Repeat(4, ActionCooldown);
    var reps := Repeat(AttemptCount(1, req.num), RollingCooldown);
    var dailies: seq<DelayKind> := if req.daily then [RollingCooldown] else [];
    var reverted: seq<DelayKind> := if Reverts(req, caller) then [RevertDelay] else [];
    Phases(Focus(w, req.verbose), Navigate(req.channel, req.verbose),
           Rolling(req.command, req.num, req.daily, req.verbose), Revert(req, caller), GatedDelay,
           [], nav, reps + dailies, reverted);
    Regroup(nav, reverted, reps, dailies);
    assert [] + nav == nav;
  }

  /** Window operations of a run: minimize, maximize, activate Discord, and at the
      end activate the caller's window exactly when reverting. */
  lemma RunWindowOps(req: Request, caller: Option<Window>, w: Window)
    ensures WindowOps(Session(req, caller, w)) ==
      [Minimize(w), Maximize(w), Activate(w)]
      + (if Reverts(req, caller) then [Activate(caller.value)] else [])
  {
    FocusEffects(w, req.verbose);
    NavigateWindowOps(req.channel, req.verbose);
    RollingWindowOps(req.command, req.num, req.daily, req.verbose);
    if Reverts(req, caller) {
      RevertEffects(caller.value, req.verbose);
    }
    var restored: seq<Action> := if Reverts(req, caller) then [Activate(caller.value)] else [];
    Phases(Focus(w, req.verbose), Navigate(req.channel, req.verbose),
           Rolling(req.command, req.num, req.daily, req.verbose), Revert(req, caller), WindowOp,
           FocusTrace(w), [], [], restored);
    Regroup(FocusTrace(w), restored, [], []);
  }

  /** With `verbose` off a run prints no verbose-gated message. */
  lemma RunSilent(req: Request, caller: Option<Window>, w: Window)
    requires !req.verbose
    ensures Prints(Session(req, caller, w)) == []
  {
    FocusEffects(w, req.verbose);
    NavigatePrints(req.channel, req.verbose);
    RollingPrints(req.command, req.num, req.daily, req.verbose);
    if Reverts(req, caller) {
      RevertEffects(caller.value, req.verbose);
    }
    Phases(Focus(w, req.verbose), Navigate(req.channel, req.verbose),
           Rolling(req.command, req.num, req.daily, req.verbose), Revert(req, caller), MessagePrinted,
           [], [], [], []);
  }
}
