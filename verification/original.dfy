/** The first, standalone script kept as test/original.py: no pause gate, no
    title filter, a launch fallback when Discord has no window, and a cursor
    move before rolling. */
module Original {
  import opened Outcomes
  import opened Seqs
  import opened Actions
  import Core
  import Keystrokes

  const DiscordAppPath := "C:/Users/soula/AppData/Roaming/Microsoft/Windows/Start Menu/Programs/Discord Inc/Discord"

  /** `CLAIM_COORD`, where Mudae's claim reaction appears. */
  const ClaimX := 500
  const ClaimY := 885

  /** `open_discord()`: focus whatever window comes first, or launch the application. */
  function OpenDiscord(windows: seq<Window>): seq<Action> {
    if |windows| > 0 then [Maximize(windows[0]), Activate(windows[0]), Print(FocusedDiscordApp)]
    else [StartApp(DiscordAppPath), Print(StartingDiscordApp), Sleep(LoadWaiting)]
  }

  /** `navigate_to_channel(channel)`: the channel is typed as given, without a '#'. */
  function Navigate(channel: string): seq<Action> {
    [Sleep(ActionCooldown), Hotkey(["ctrl", "t"]),
     Sleep(ActionCooldown), Type(channel + "\n", true),
     Sleep(ActionCooldown), Hotkey(["esc"]),
     Print(FocusedTextArea(channel))]
  }

  /** `start_rolling(command, num, daily)` */
  function StartRolling(command: string, num: int, daily: bool): seq<Action> {
    [MoveTo(ClaimX, ClaimY), Print(StartingToRoll(command))]
    + Keystrokes.Rolls(command, 1, num)
    + (if daily then [Print(AttemptingDaily), Type("$daily\n", false), Sleep(RollingCooldown), Type("$dk\n", false)]
       else [])
  }

  /** `main()` once the arguments are parsed. */
  function Main(command: string, channel: string, num: int, daily: bool, windows: seq<Window>): seq<Action> {
    OpenDiscord(windows) + Navigate(channel) + StartRolling(command, num, daily) + [Print(ScriptTerminated)]
  }

  function CursorMove(a: Action): Option<(int, int)> {
    if a.MoveTo? then Some((a.x, a.y)) else None
  }

  /** The first window is taken whatever its title: maximize, then activate, never
      minimize; with no window the application is launched and given LOAD_WAITING. */
  lemma OpenDiscordEffects(windows: seq<Window>)
    ensures |windows| > 0 ==> WindowOps(OpenDiscord(windows)) == [Maximize(windows[0]), Activate(windows[0])]
    ensures |windows| == 0 ==> WindowOps(OpenDiscord(windows)) == []
    ensures |windows| == 0 ==> Sleeps(OpenDiscord(windows)) == [LoadWaiting]
    ensures Typed(OpenDiscord(windows)) == []
  {
    var t := OpenDiscord(windows);
    if |windows| > 0 {
      assert t == [Maximize(windows[0]), Activate(windows[0])] + [Print(FocusedDiscordApp)];
      CollectAppend([Maximize(windows[0]), Activate(windows[0])], [Print(FocusedDiscordApp)], WindowOp);
      CollectAll([Maximize(windows[0]), Activate(windows[0])], WindowOp);
      CollectNone([Print(FocusedDiscordApp)], WindowOp);
    } else {
      CollectNone(t, WindowOp);
      CollectOne(t, PlainDelay, 2);
    }
    CollectNone(t, TextTyped);
  }

  /** Unlike the later engine, the original focuses a window whose title is not
      Discord's, and launches instead of failing on an empty list. */
  lemma NoTitleFilter()
    ensures Core.OpenDiscord([Window(1, "Discord Updater")], false).Err?
    ensures WindowOps(OpenDiscord([Window(1, "Discord Updater")])) != []
    ensures Core.OpenDiscord([], false).Err? && StartApp(DiscordAppPath) in OpenDiscord([])
  {
    var w := Window(1, "Discord Updater");
    assert !Core.IsDiscordWindow(w) by {
      assert "Discord Updater"[6..] != Core.DiscordSuffix;
    }
    OpenDiscordEffects([w]);
  }

  /** The channel is typed verbatim, after three ACTION sleeps' worth of steps. */
  lemma NavigateEffects(channel: string)
    ensures Typed(Navigate(channel)) == [channel + "\n"]
    ensures Sleeps(Navigate(channel)) == Repeat(3, ActionCooldown)
    ensures Prints(Navigate(channel)) == [FocusedTextArea(channel)]
  {
    var t := Navigate(channel);
    assert Typed(t) == [channel + "\n"] by {
      CollectOne(t, TextTyped, 3);
    }
    assert Prints(t) == [FocusedTextArea(channel)] by {
      CollectOne(t, MessagePrinted, 6);
    }
    NavigateSleeps(channel);
  }

  lemma NavigateSleeps(channel: string)
    ensures Sleeps(Navigate(channel)) == Repeat(3, ActionCooldown)
  {
    var front := [Sleep(ActionCooldown), Hotkey(["ctrl", "t"])];
    var middle := [Sleep(ActionCooldown), Type(channel + "\n", true)];
    var back := [Sleep(ActionCooldown), Hotkey(["esc"]), Print(FocusedTextArea(channel))];
    assert Navigate(channel) == front + middle + back;
    CollectAppend(front, middle, PlainDelay);
    CollectAppend(front + middle, back, PlainDelay);
    CollectOne(front, PlainDelay, 0);
    CollectOne(middle, PlainDelay, 0);
    CollectOne(back, PlainDelay, 0);
  }

  /** The original does not normalise the channel into a '#' query. */
  lemma NavigateDiffersFromCore(channel: string, verbose: bool)
    requires |channel| == 0 || channel[0] != '#'
    ensures Typed(Navigate(channel)) == [channel + "\n"]
    ensures Typed(Core.Navigate(channel, verbose)) == ["#" + channel + "\n"]
  {
    NavigateEffects(channel);
    Core.NavigateTyped(channel, verbose);
    assert Core.NavigationQuery(channel) == "#" + channel;
  }

  /** The cursor moves to the claim position exactly once, before anything else. */
  lemma StartRollingMovesFirst(command: string, num: int, daily: bool)
    ensures StartRolling(command, num, daily)[0] == MoveTo(ClaimX, ClaimY)
    ensures Collect(StartRolling(command, num, daily), CursorMove) == [(ClaimX, ClaimY)]
  {
    var head := [MoveTo(ClaimX, ClaimY), Print(StartingToRoll(command))];
    var loop := Keystrokes.Rolls(command, 1, num);
    var extras := if daily then [Print(AttemptingDaily), Type("$daily\n", false), Sleep(RollingCooldown), Type("$dk\n", false)] else [];
    CollectOne(head, CursorMove, 0);
    RollsNeverMove(command, 1, num);
    CollectNone(extras, CursorMove);
    Core.Phases3(head, loop, extras, CursorMove, [(ClaimX, ClaimY)], [], []);
  }

  /** `num` roll commands and, when asked, the daily commands after them. */
  lemma StartRollingTyped(command: string, num: int, daily: bool)
    ensures Typed(StartRolling(command, num, daily)) ==
      Repeat(Core.AttemptCount(1, num), Core.RollCommand(command))
      + (if daily then ["$daily\n", "$dk\n"] else [])
  {
    var head := [MoveTo(ClaimX, ClaimY), Print(StartingToRoll(command))];
    var loop := Keystrokes.Rolls(command, 1, num);
    var extras := if daily then [Print(AttemptingDaily), Type("$daily\n", false), Sleep(RollingCooldown), Type("$dk\n", false)] else [];
    var dailies: seq<string> := if daily then ["$daily\n", "$dk\n"] else [];
    CollectNone(head, TextTyped);
    Keystrokes.RollsEffects(command, num);
    if daily {
      var a := [Print(AttemptingDaily), Type("$daily\n", false)];
      var b := [Sleep(RollingCooldown), Type("$dk\n", false)];
      assert extras == a + b;
      CollectAppend(a, b, TextTyped);
      CollectOne(a, TextTyped, 1);
      CollectOne(b, TextTyped, 1);
    }
    var rolls := Repeat(Core.AttemptCount(1, num), Core.RollCommand(command));
    Core.Phases3(head, loop, extras, TextTyped, [], rolls, dailies);
    Core.Regroup(rolls, dailies, [], []);
  }

  lemma {:induction false} RollsNeverMove(command: string, k: int, num: int)
    ensures Collect(Keystrokes.Rolls(command, k, num), CursorMove) == []
    decreases num - k + 1
  {
    if k <= num {
      var head := [Type(Core.RollCommand(command), false), Print(RollProgress(k, num)), Sleep(RollingCooldown)];
      RollsNeverMove(command, k + 1, num);
      CollectAppend(head, Keystrokes.Rolls(command, k + 1, num), CursorMove);
      CollectNone(head, CursorMove);
    }
  }

  /** The whole script types the channel as given, the roll commands and the
      daily commands. */
  lemma MainEffects(command: string, channel: string, num: int, daily: bool, windows: seq<Window>)
    ensures Typed(Main(command, channel, num, daily, windows)) ==
      [channel + "\n"] + Repeat(Core.AttemptCount(1, num), Core.RollCommand(command))
      + (if daily then ["$daily\n", "$dk\n"] else [])
  {
    var rolls := Repeat(Core.AttemptCount(1, num), Core.RollCommand(command));
    var dailies: seq<string> := if daily then ["$daily\n", "$dk\n"] else [];
    OpenDiscordEffects(windows);
    NavigateEffects(channel);
    StartRollingTyped(command, num, daily);
    CollectNone([Print(ScriptTerminated)], TextTyped);
    Core.Phases(OpenDiscord(windows), Navigate(channel), StartRolling(command, num, daily), [Print(ScriptTerminated)], TextTyped,
      [], [channel + "\n"], rolls + dailies, []);
    Ends([channel + "\n"], rolls, dailies);
  }

  lemma Ends<T>(x: seq<T>, r: seq<T>, d: seq<T>)
    ensures [] + x + (r + d) + [] == x + r + d
  {
  }

  /** The script always ends by announcing its termination. */
  lemma MainEndsAnnounced(command: string, channel: string, num: int, daily: bool, windows: seq<Window>)
    ensures Main(command, channel, num, daily, windows)[|Main(command, channel, num, daily, windows)| - 1] == Print(ScriptTerminated)
  {
  }
}
