/** The observable effects of the automation: keystrokes, window operations,
    delays and console lines, recorded as a trace, with projections that pick
    out one kind of effect. */
module Actions {
  import opened Outcomes
  import opened Seqs

  /** The named delays of the source (their float values are not modelled). */
  datatype DelayKind =
    | ActionCooldown     // ACTION_COOLDOWN, between UI actions
    | RollingCooldown    // ROLLING_COOLDOWN, between roll commands
    | RevertDelay        // REVERT_WINDOW_DELAY, before restoring the caller's window
    | SettleDelay        // the 0.1 s wait after re-focusing on resume
    | LoadWaiting        // LOAD_WAITING, after launching the application

  /** An OS window as pygetwindow exposes it. */
  datatype Window = Window(handle: nat, title: string)

  /** Console lines, one constructor per message of the source. */
  datatype Msg =
    | PausedNotice
    | ResumedNotice
    | LostFocusNotice
    | MovedToDiscord
    | NavigatingWith(query: string)
    | FinishedNavigating
    | StartingToRoll(command: string)
    | RollProgress(attempt: int, total: int)
    | FinishedRolling
    | FinishedDaily
    | RevertAnnouncement(title: string)
    | ReturnedFocus(title: string)
    | FocusedDiscordApp
    | StartingDiscordApp
    | FocusedTextArea(channel: string)
    | AttemptingDaily
    | ScriptTerminated

  datatype Action =
    | Hotkey(keys: seq<string>)        // pyautogui.hotkey(*keys)
    | Type(text: string, paced: bool)  // pyautogui.typewrite; paced: interval=TYPING_COOLDOWN
    | Wait(delay: DelayKind)           // _wait: sleep, then block until unpaused and focused
    | Sleep(delay: DelayKind)          // time.sleep, with no gating
    | Print(msg: Msg)
    | Minimize(win: Window)
    | Maximize(win: Window)
    | Activate(win: Window)
    | MoveTo(x: int, y: int)           // pyautogui.moveTo
    | StartApp(path: string)           // os.startfile

  /** The values `pick` extracts from a trace, in trace order. */
  function Collect<T>(t: seq<Action>, pick: Action -> Option<T>): (r: seq<T>)
    ensures |r| <= |t|
  {
    if |t| == 0 then [] else Picked(t[0], pick) + Collect(t[1..], pick)
  }

  function Picked<T>(a: Action, pick: Action -> Option<T>): seq<T> {
    match pick(a)
    case Some(x) => [x]
    case None => []
  }

  lemma {:induction false} CollectAppend<T>(a: seq<Action>, b: seq<Action>, pick: Action -> Option<T>)
    ensures Collect(a + b, pick) == Collect(a, pick) + Collect(b, pick)
  {
    if |a| == 0 {
      assert a + b == b;
    } else {
      assert (a + b)[1..] == a[1..] + b;
      assert (a + b)[0] == a[0];
      CollectAppend(a[1..], b, pick);
    }
  }

  /** A trace from which `pick` extracts nothing. */
  lemma {:induction false} CollectNone<T>(t: seq<Action>, pick: Action -> Option<T>)
    requires forall i :: 0 <= i < |t| ==> pick(t[i]).None?
    ensures Collect(t, pick) == []
  {
    if |t| > 0 {
      CollectNone(t[1..], pick);
    }
  }

  /** A trace from which `pick` extracts exactly one value, at position `k`. */
  lemma CollectOne<T>(t: seq<Action>, pick: Action -> Option<T>, k: nat)
    requires k < |t| && pick(t[k]).Some?
    requires forall i :: 0 <= i < |t| && i != k ==> pick(t[i]).None?
    ensures Collect(t, pick) == [pick(t[k]).value]
  {
    assert t == t[..k] + t[k..];
    CollectNone(t[..k], pick);
    CollectAppend(t[..k], t[k..], pick);
    assert t[k..][1..] == t[k + 1..];
    CollectNone(t[k + 1..], pick);
  }

  /** A trace every action of which `pick` keeps unchanged. */
  lemma {:induction false} CollectAll(t: seq<Action>, pick: Action -> Option<Action>)
    requires forall i :: 0 <= i < |t| ==> pick(t[i]) == Some(t[i])
    ensures Collect(t, pick) == t
  {
    if |t| > 0 {
      CollectAll(t[1..], pick);
      assert t == [t[0]] + t[1..];
    }
  }

  function TextTyped(a: Action): Option<string> {
    if a.Type? then Some(a.text) else None
  }

  function MessagePrinted(a: Action): Option<Msg> {
    if a.Print? then Some(a.msg) else None
  }

  function GatedDelay(a: Action): Option<DelayKind> {
    if a.Wait? then Some(a.delay) else None
  }

  function PlainDelay(a: Action): Option<DelayKind> {
    if a.Sleep? then Some(a.delay) else None
  }

  function WindowOp(a: Action): Option<Action> {
    if a.Minimize? || a.Maximize? || a.Activate? then Some(a) else None
  }

  function NonPrint(a: Action): Option<Action> {
    if a.Print? then None else Some(a)
  }

  /** The texts typed, in order. */
  function Typed(t: seq<Action>): seq<string> { Collect(t, TextTyped) }

  /** The console messages, in order. */
  function Prints(t: seq<Action>): seq<Msg> { Collect(t, MessagePrinted) }

  /** The gated waits, in order. */
  function Waits(t: seq<Action>): seq<DelayKind> { Collect(t, GatedDelay) }

  /** The plain sleeps, in order. */
  function Sleeps(t: seq<Action>): seq<DelayKind> { Collect(t, PlainDelay) }

  /** The window operations, in order. */
  function WindowOps(t: seq<Action>): seq<Action> { Collect(t, WindowOp) }

  /** The trace with its console output removed. */
  function Quiet(t: seq<Action>): seq<Action> { Collect(t, NonPrint) }

  /** A trace of console lines only, or nothing: an optional message. */
  function Say(verbose: bool, m: Msg): seq<Action> {
    if verbose then [Print(m)] else []
  }

  /** Each action followed by a gated wait of the same kind. */
  function Paced(actions: seq<Action>, delay: DelayKind): (r: seq<Action>)
    ensures |r| == 2 * |actions|
  {
    if |actions| == 0 then [] else [actions[0], Wait(delay)] + Paced(actions[1..], delay)
  }

  lemma {:induction false} PacedWaits(actions: seq<Action>, delay: DelayKind)
    requires forall i :: 0 <= i < |actions| ==> !actions[i].Wait?
    ensures Waits(Paced(actions, delay)) == Repeat(|actions|, delay)
  {
    if |actions| > 0 {
      var rest := Paced(actions[1..], delay);
      PacedWaits(actions[1..], delay);
      CollectAppend([actions[0], Wait(delay)], rest, GatedDelay);
      CollectOne([actions[0], Wait(delay)], GatedDelay, 1);
      RepeatSucc(|actions| - 1, delay);
    }
  }

  /** Interleaving the waits leaves every other projection as it was. */
  lemma {:induction false} PacedOthers<T>(actions: seq<Action>, delay: DelayKind, pick: Action -> Option<T>)
    requires pick(Wait(delay)).None?
    ensures Collect(Paced(actions, delay), pick) == Collect(actions, pick)
  {
    if |actions| > 0 {
      var rest := Paced(actions[1..], delay);
      PacedOthers(actions[1..], delay, pick);
      CollectAppend([actions[0], Wait(delay)], rest, pick);
      CollectAppend([actions[0]], [Wait(delay)], pick);
      assert [actions[0], Wait(delay)] == [actions[0]] + [Wait(delay)];
      assert [actions[0]][1..] == [] && [Wait(delay)][1..] == [];
      assert actions == [actions[0]] + actions[1..];
      CollectAppend([actions[0]], actions[1..], pick);
    }
  }

  /** Pacing print-free actions gives a print-free trace. */
  lemma {:induction false} PacedQuiet(actions: seq<Action>, delay: DelayKind)
    requires forall i :: 0 <= i < |actions| ==> !actions[i].Print?
    ensures Quiet(Paced(actions, delay)) == Paced(actions, delay)
  {
    if |actions| > 0 {
      var rest := Paced(actions[1..], delay);
      PacedQuiet(actions[1..], delay);
      CollectAppend([actions[0], Wait(delay)], rest, NonPrint);
      CollectAll([actions[0], Wait(delay)], NonPrint);
    }
  }

  /** `_wait` replaced by `time.sleep`: the same trace without pause or focus gating. */
  function Ungate(t: seq<Action>): (r: seq<Action>)
    ensures |r| == |t|
    ensures forall i :: 0 <= i < |t| ==> r[i] == (if t[i].Wait? then Sleep(t[i].delay) else t[i])
  {
    seq(|t|, i requires 0 <= i < |t| => if t[i].Wait? then Sleep(t[i].delay) else t[i])
  }

  lemma UngateAppend(a: seq<Action>, b: seq<Action>)
    ensures Ungate(a + b) == Ungate(a) + Ungate(b)
  {
  }

  /** A projection that cannot tell a gated wait from a plain sleep is blind to ungating. */
  lemma {:induction false} UngateOthers<T>(t: seq<Action>, pick: Action -> Option<T>)
    requires forall d: DelayKind :: pick(Wait(d)) == pick(Sleep(d))
    ensures Collect(Ungate(t), pick) == Collect(t, pick)
  {
    if |t| > 0 {
      UngateOthers(t[1..], pick);
      assert t == [t[0]] + t[1..];
      UngateAppend([t[0]], t[1..]);
      assert Ungate(t)[0] == Ungate([t[0]])[0];
      assert Ungate(t)[1..] == Ungate(t[1..]);
    }
  }

  /** Ungating turns the gated waits, in order, into the plain sleeps. */
  lemma {:induction false} UngateWaits(t: seq<Action>)
    requires forall i :: 0 <= i < |t| ==> !t[i].Sleep?
    ensures Sleeps(Ungate(t)) == Waits(t)
  {
    if |t| > 0 {
      UngateWaits(t[1..]);
      assert Ungate(t)[1..] == Ungate(t[1..]);
    }
  }
}
