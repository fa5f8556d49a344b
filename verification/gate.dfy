/** The pause flag and the gated wait of src/waifu/core.py: `_Pauser.toggle`,
    bound to the pause key, and `_wait`, which every step of the automation
    calls between actions. */
module Gate {
  import opened Outcomes
  import opened Seqs
  import opened Actions
  import opened Exceptions
  import opened Core

  /** One look at the environment: the pause flag and the active window's title. */
  datatype Observation = Observation(paused: bool, activeTitle: Option<string>)

  /** The condition `_wait` blocks on: not paused and Discord in front. */
  predicate Ready(o: Observation) {
    !o.paused && IsDiscordTitle(o.activeTitle)
  }

  /** `Released(k)`: the `k`-th poll of the blocking loop let the wait return.
      `StillBlocked`: no poll of the schedule did, and the wait has not returned. */
  datatype GateOutcome = Released(poll: nat) | StillBlocked

  /** How a wait ended, and what it did on the way. */
  datatype Waited = Waited(outcome: GateOutcome, trace: seq<Action>)

  /** `_wait(delay)`. `activeTitle` is the active window's title when the focus
      check right after the sleep runs (that check ignores the pause flag);
      `polls` is the finite schedule of what each pass of the busy loop sees.
      The source spins for as long as the condition fails; a schedule that never
      becomes ready leaves the wait blocked. */
  method AwaitReady(delay: DelayKind, activeTitle: Option<string>, polls: seq<Observation>) returns (r: Waited)
    ensures r.trace == [Sleep(delay)] + (if IsDiscordTitle(activeTitle) then [] else [Print(LostFocusNotice)])
    ensures r.outcome.StillBlocked? <==> forall j :: 0 <= j < |polls| ==> !Ready(polls[j])
    ensures r.outcome.Released? ==> r.outcome.poll < |polls| && Ready(polls[r.outcome.poll])
    ensures r.outcome.Released? ==> forall j :: 0 <= j < r.outcome.poll ==> !Ready(polls[j])
  {
    var trace := [Sleep(delay)];
    if !IsDiscordTitle(activeTitle) {
      trace := trace + [Print(LostFocusNotice)];
    }
    var i := 0;
    while i < |polls| && !Ready(polls[i])
      invariant 0 <= i <= |polls|
      invariant forall j :: 0 <= j < i ==> !Ready(polls[j])
    {
      i := i + 1;
    }
    r := Waited(if i < |polls| then Released(i) else StillBlocked, trace);
  }

  /** The flag after a press of the pause key, what the handler did, and the
      error it raised, if any. */
  datatype Toggled = Toggled(paused: bool, trace: seq<Action>, error: Option<Error>)

  /** `_Pauser.toggle(verbose)`: flip the flag; on resuming with Discord not in
      front, focus it again and wait briefly. `activeTitle` is the active
      window's title when the key is pressed and `windows` what
      `getWindowsWithTitle("Discord")` returns. */
  function Toggle(paused: bool, activeTitle: Option<string>, windows: seq<Window>, verbose: bool): (r: Toggled)
    ensures r.paused == !paused
    ensures r.paused ==> r.trace == [Print(PausedNotice)] && r.error.None?
    ensures !r.paused ==> |r.trace| >= 1 && r.trace[0] == Print(ResumedNotice)
    ensures r.error.Some? <==>
      !r.paused && !IsDiscordTitle(activeTitle)
      && forall i :: 0 <= i < |windows| ==> !IsDiscordWindow(windows[i])
    ensures r.error.Some? ==> r.error.value == DiscordNotOpenError(Titles(windows)) && r.trace == [Print(ResumedNotice)]
    ensures !r.paused && IsDiscordTitle(activeTitle) ==> r.trace == [Print(ResumedNotice)]
    ensures !r.paused && !IsDiscordTitle(activeTitle) && r.error.None? ==>
      exists i :: (IsFirstDiscord(windows, i)
        && r.trace == [Print(ResumedNotice)] + Focus(windows[i], verbose) + [Wait(SettleDelay)])
  {
    var flag := !paused;
    if flag then Toggled(flag, [Print(PausedNotice)], None)
    else if IsDiscordTitle(activeTitle) then Toggled(flag, [Print(ResumedNotice)], None)
    else
      match OpenDiscord(windows, verbose)
      case Err(e) => Toggled(flag, [Print(ResumedNotice)], Some(e))
      case Ok(focus) => Toggled(flag, [Print(ResumedNotice)] + focus + [Wait(SettleDelay)], None)
  }

  /** Two presses in the same situation restore the flag; the first of a pair
      that starts unpaused only prints the pause notice. */
  lemma ToggleTwice(paused: bool, activeTitle: Option<string>, windows: seq<Window>, verbose: bool)
    ensures Toggle(Toggle(paused, activeTitle, windows, verbose).paused, activeTitle, windows, verbose).paused == paused
    ensures !paused ==> Toggle(paused, activeTitle, windows, verbose).trace == [Print(PausedNotice)]
  {
  }

  /** Pausing and resuming never type anything into Discord. */
  lemma ToggleNeverTypes(paused: bool, activeTitle: Option<string>, windows: seq<Window>, verbose: bool)
    ensures Typed(Toggle(paused, activeTitle, windows, verbose).trace) == []
  {
    var r := Toggle(paused, activeTitle, windows, verbose);
    if r.paused || IsDiscordTitle(activeTitle) || r.error.Some? {
      CollectNone(r.trace, TextTyped);
    } else {
      var i :| IsFirstDiscord(windows, i)
        && r.trace == [Print(ResumedNotice)] + Focus(windows[i], verbose) + [Wait(SettleDelay)];
      FocusEffects(windows[i], verbose);
      CollectNone([Print(ResumedNotice)], TextTyped);
      CollectNone([Wait(SettleDelay)], TextTyped);
      Collect3([Print(ResumedNotice)], Focus(windows[i], verbose), [Wait(SettleDelay)], TextTyped);
    }
  }

  /** Window operations happen only on a resume that finds Discord out of focus. */
  lemma ToggleWindowOps(paused: bool, activeTitle: Option<string>, windows: seq<Window>, verbose: bool)
    ensures WindowOps(Toggle(paused, activeTitle, windows, verbose).trace) != [] <==>
      paused && !IsDiscordTitle(activeTitle)
      && exists i :: 0 <= i < |windows| && IsDiscordWindow(windows[i])
  {
    var r := Toggle(paused, activeTitle, windows, verbose);
    if r.paused || IsDiscordTitle(activeTitle) || r.error.Some? {
      CollectNone(r.trace, WindowOp);
    } else {
      var i :| IsFirstDiscord(windows, i)
        && r.trace == [Print(ResumedNotice)] + Focus(windows[i], verbose) + [Wait(SettleDelay)];
      FocusEffects(windows[i], verbose);
      CollectNone([Print(ResumedNotice)], WindowOp);
      CollectNone([Wait(SettleDelay)], WindowOp);
      Collect3([Print(ResumedNotice)], Focus(windows[i], verbose), [Wait(SettleDelay)], WindowOp);
    }
  }
}
