/** The earlier engine of src/keystrokes.py: the same navigation and rolling
    steps as src/waifu/core.py, always verbose, with plain `time.sleep` calls
    in place of the pause- and focus-gated `_wait`. */
module Keystrokes {
  import opened Seqs
  import opened Actions
  import Core

  /** `navigate_to_channel(channel)` */
  function Navigate(channel: string): seq<Action> {
    var q := Core.NavigationQuery(channel);
    [Print(NavigatingWith(q)),
     Hotkey(["esc"]), Sleep(ActionCooldown),
     Hotkey(["ctrl", "k"]), Sleep(ActionCooldown),
     Type(q + "\n", true), Sleep(ActionCooldown),
     Hotkey(["esc"]), Sleep(ActionCooldown),
     Print(FinishedNavigating)]
  }

  /** Passes `k`..`num` of the roll loop: type, report, sleep. */
  function Rolls(command: string, k: int, num: int): seq<Action>
    decreases num - k + 1
  {
    if k > num then []
    else [Type(Core.RollCommand(command), false), Print(RollProgress(k, num)), Sleep(RollingCooldown)]
         + Rolls(command, k + 1, num)
  }

  /** `start_rolling(command, num, daily)` */
  function StartRolling(command: string, num: int, daily: bool): seq<Action> {
    [Print(StartingToRoll(command))]
    + Rolls(command, 1, num)
    + [Print(FinishedRolling)]
    + (if daily then [Type("$daily\n", false), Sleep(RollingCooldown), Type("$dk\n", false), Print(FinishedDaily)]
       else [])
  }

  lemma PacedNavigation(q: string)
    ensures Paced(Core.NavigationKeys(q), ActionCooldown) ==
      [Hotkey(["esc"]), Wait(ActionCooldown), Hotkey(["ctrl", "k"]), Wait(ActionCooldown),
       Type(q + "\n", true), Wait(ActionCooldown), Hotkey(["esc"]), Wait(ActionCooldown)]
  {
    var keys := Core.NavigationKeys(q);
    assert Paced(keys[3..], ActionCooldown) == [keys[3], Wait(ActionCooldown)] + Paced(keys[4..], ActionCooldown);
    assert Paced(keys[2..], ActionCooldown) == [keys[2], Wait(ActionCooldown)] + Paced(keys[3..], ActionCooldown);
    assert Paced(keys[1..], ActionCooldown) == [keys[1], Wait(ActionCooldown)] + Paced(keys[2..], ActionCooldown);
  }

  /** The old navigation is the gated one, verbose, with every wait made a plain sleep. */
  lemma NavigateIsUngated(channel: string)
    ensures Navigate(channel) == Ungate(Core.Navigate(channel, true))
  {
    var q := Core.NavigationQuery(channel);
    var keys := Paced(Core.NavigationKeys(q), ActionCooldown);
    assert Ungate(keys) == Navigate(channel)[1..9] by {
      PacedNavigation(q);
    }
    UngateAppend([Print(NavigatingWith(q))] + keys, [Print(FinishedNavigating)]);
    UngateAppend([Print(NavigatingWith(q))], keys);
  }

  lemma {:induction false} RollsAreUngated(command: string, k: int, num: int)
    ensures Rolls(command, k, num) == Ungate(Core.Attempts(command, k, num, true))
    decreases num - k + 1
  {
    if k <= num {
      RollsAreUngated(command, k + 1, num);
      UngateAppend(Core.Attempt(command, k, num, true), Core.Attempts(command, k + 1, num, true));
    }
  }

  /** The old rolling is the gated one, verbose, with every wait made a plain sleep. */
  lemma StartRollingIsUngated(command: string, num: int, daily: bool)
    ensures StartRolling(command, num, daily) == Ungate(Core.Rolling(command, num, daily, true))
  {
    var start := [Print(StartingToRoll(command))];
    var loop := Core.Attempts(command, 1, num, true);
    var finish := [Print(FinishedRolling)];
    var extras := Core.Extras(daily, true);
    RollsAreUngated(command, 1, num);
    UngateAppend(start + loop + finish, extras);
    UngateAppend(start + loop, finish);
    UngateAppend(start, loop);
  }

  /** Exactly `num` roll commands (none for `num <= 0`), the daily commands only
      when asked and only after every roll. */
  lemma StartRollingTyped(command: string, num: int, daily: bool)
    ensures Typed(StartRolling(command, num, daily)) ==
      Repeat(Core.AttemptCount(1, num), Core.RollCommand(command))
      + (if daily then ["$daily\n", "$dk\n"] else [])
  {
    StartRollingIsUngated(command, num, daily);
    UngateOthers(Core.Rolling(command, num, daily, true), TextTyped);
    Core.RollingTyped(command, num, daily, true);
  }

  /** Progress `(i/num)` for every attempt, always; "Finished rolling" even when
      nothing was rolled. */
  lemma StartRollingPrints(command: string, num: int, daily: bool)
    ensures Prints(StartRolling(command, num, daily)) ==
      [StartingToRoll(command)] + Core.ProgressFrom(1, num) + [FinishedRolling]
      + (if daily then [FinishedDaily] else [])
  {
    StartRollingIsUngated(command, num, daily);
    UngateOthers(Core.Rolling(command, num, daily, true), MessagePrinted);
    Core.RollingPrints(command, num, daily, true);
  }

  /** One ROLLING sleep per roll and one between `$daily` and `$dk`; nothing is gated. */
  lemma StartRollingSleeps(command: string, num: int, daily: bool)
    ensures Sleeps(StartRolling(command, num, daily)) ==
      Repeat(Core.AttemptCount(1, num), RollingCooldown) + (if daily then [RollingCooldown] else [])
    ensures Waits(StartRolling(command, num, daily)) == []
  {
    StartRollingIsUngated(command, num, daily);
    var gated := Core.Rolling(command, num, daily, true);
    Core.RollingQuiet(command, num, daily, true);
    NoSleepInRolling(command, num, daily);
    UngateWaits(gated);
    Core.RollingWaits(command, num, daily, true);
    CollectNone(Ungate(gated), GatedDelay);
  }

  lemma {:induction false} AttemptsNeverSleep(command: string, k: int, num: int)
    ensures forall i :: 0 <= i < |Core.Attempts(command, k, num, true)| ==> !Core.Attempts(command, k, num, true)[i].Sleep?
    decreases num - k + 1
  {
    if k <= num {
      AttemptsNeverSleep(command, k + 1, num);
      var head: seq<Action> := Core.Attempt(command, k, num, true);
      var rest: seq<Action> := Core.Attempts(command, k + 1, num, true);
      forall i | 0 <= i < |head + rest|
        ensures !(head + rest)[i].Sleep?
      {
        if i >= |head| {
          assert (head + rest)[i] == rest[i - |head|];
        }
      }
    }
  }

  /** The roll loop's effects, shared by this engine and the original script. */
  lemma RollsEffects(command: string, num: int)
    ensures Typed(Rolls(command, 1, num)) == Repeat(Core.AttemptCount(1, num), Core.RollCommand(command))
    ensures Prints(Rolls(command, 1, num)) == Core.ProgressFrom(1, num)
    ensures Sleeps(Rolls(command, 1, num)) == Repeat(Core.AttemptCount(1, num), RollingCooldown)
  {
    var gated := Core.Attempts(command, 1, num, true);
    RollsAreUngated(command, 1, num);
    UngateOthers(gated, TextTyped);
    Core.AttemptsTyped(command, 1, num, true);
    UngateOthers(gated, MessagePrinted);
    Core.AttemptsPrints(command, 1, num, true);
    AttemptsNeverSleep(command, 1, num);
    UngateWaits(gated);
    Core.AttemptsWaits(command, 1, num, true);
  }

  /** The gated engine never calls `time.sleep` directly while rolling. */
  lemma NoSleepInRolling(command: string, num: int, daily: bool)
    ensures forall i :: 0 <= i < |Core.Rolling(command, num, daily, true)| ==> !Core.Rolling(command, num, daily, true)[i].Sleep?
  {
    var start := [Print(StartingToRoll(command))];
    var loop := Core.Attempts(command, 1, num, true);
    var finish := [Print(FinishedRolling)];
    var extras := Core.Extras(daily, true);
    AttemptsNeverSleep(command, 1, num);
    var t := start + loop + finish + extras;
    forall i | 0 <= i < |t|
      ensures !t[i].Sleep?
    {
      if i < 1 {
      } else if i < 1 + |loop| {
        assert t[i] == loop[i - 1];
      } else if i < 2 + |loop| {
      } else {
        assert t[i] == extras[i - 2 - |loop|];
      }
    }
  }

  /** With no rolls asked for, nothing is typed but the daily commands, and the
      end of rolling is still announced. */
  lemma NoRollsStillFinishes(command: string, num: int, daily: bool)
    requires num <= 0
    ensures Typed(StartRolling(command, num, daily)) == (if daily then ["$daily\n", "$dk\n"] else [])
    ensures FinishedRolling in Prints(StartRolling(command, num, daily))
  {
    StartRollingTyped(command, num, daily);
    StartRollingPrints(command, num, daily);
    assert Core.ProgressFrom(1, num) == [];
  }

  /** The query typed is the normalised channel, with a single leading '#'. */
  lemma NavigateTyped(channel: string)
    ensures Typed(Navigate(channel)) == [Core.NavigationQuery(channel) + "\n"]
    ensures Sleeps(Navigate(channel)) == Repeat(4, ActionCooldown)
  {
    NavigateIsUngated(channel);
    var gated := Core.Navigate(channel, true);
    UngateOthers(gated, TextTyped);
    Core.NavigateTyped(channel, true);
    PacedNavigation(Core.NavigationQuery(channel));
    UngateWaits(gated);
    Core.NavigateWaits(channel, true);
  }
}
