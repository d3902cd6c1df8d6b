/**
 * The installer's wizard as a pure state machine: the InstallerState record,
 * the list cursor that stands in for ratatui's ListState, the per-key
 * transitions of run_app, the cursor initialisation done while drawing a list
 * stage, and the run loop that stops on quit or hands off after step 9.
 */
module Wizard {
  import opened Common
  import opened Tables

  /** The fields of InstallerState. */
  datatype State = State(
    step: nat,
    username: string,
    password: string,
    hostname: string,
    edition: Option<Edition>,
    branch: Option<DebianBranch>,
    filesystem: Option<Filesystem>,
    manualPartition: bool,
    disk: string,
    previewImage: bool,
    quit: bool)

  /** The wizard state together with the selected index of the list cursor. */
  datatype Screen = Screen(state: State, cursor: Option<nat>)

  const DefaultHostname: string := "hackeros"

  /** run_app hands the state to the installation once the step reaches this value. */
  const FinalStep: nat := 10

  /** InstallerState::default(). */
  function Initial(): State
  {
    State(0, "", "", DefaultHostname, None, None, None, false, "", false, false)
  }

  /** Edition, branch, filesystem and partition mode are chosen from lists. */
  predicate IsListStep(step: nat)
  {
    4 <= step <= 7
  }

  /** The free-text field a stage edits, for the four text stages. */
  predicate IsTextStep(step: nat)
  {
    step == 1 || step == 2 || step == 3 || step == 8
  }

  /** A set cursor outside the option table on the edition, branch or filesystem stage. */
  predicate EarlyReturn(s: State, cursor: Option<nat>)
  {
    cursor.Some? &&
    ((s.step == 4 && EditionAt(cursor.value).None?) ||
     (s.step == 5 && BranchAt(cursor.value).None?) ||
     (s.step == 6 && FilesystemAt(cursor.value).None?))
  }

  /**
   * handle_enter. An out-of-range cursor on the edition, branch or filesystem
   * stage returns before the cursor reset; every other call ends with the
   * cursor unset.
   */
  function Enter(s: State, cursor: Option<nat>): (r: Screen)
    ensures r.state.step == s.step || r.state.step == s.step + 1
    ensures EarlyReturn(s, cursor) ==> r == Screen(s, cursor)
    ensures !EarlyReturn(s, cursor) ==> r.cursor == None
    ensures s.step >= FinalStep ==> r.state == s
    ensures r.state.username == s.username && r.state.password == s.password && r.state.disk == s.disk
    ensures r.state.quit == s.quit
  {
    match s.step
    case 0 => Screen(s.(step := 1), None)
    case 1 => Screen(if s.username != [] then s.(step := 2) else s, None)
    case 2 => Screen(if s.password != [] then s.(step := 3) else s, None)
    case 3 =>
      Screen(s.(hostname := if s.hostname == [] then DefaultHostname else s.hostname, step := 4), None)
    case 4 =>
      if cursor.None? then Screen(s, None)
      else (match EditionAt(cursor.value)
            case None => Screen(s, cursor)
            case Some(e) => Screen(s.(edition := Some(e), previewImage := true, step := 5), None))
    case 5 =>
      if cursor.None? then Screen(s, None)
      else (match BranchAt(cursor.value)
            case None => Screen(s, cursor)
            case Some(b) => Screen(s.(branch := Some(b), step := 6), None))
    case 6 =>
      if cursor.None? then Screen(s, None)
      else (match FilesystemAt(cursor.value)
            case None => Screen(s, cursor)
            case Some(f) => Screen(s.(filesystem := Some(f), step := 7), None))
    case 7 =>
      if cursor.None? then Screen(s, None)
      else Screen(s.(manualPartition := cursor.value == 1, step := 8), None)
    case 8 => Screen(if s.disk != [] then s.(step := 9) else s, None)
    case 9 => Screen(s.(step := 10), None)
    case _ => Screen(s, None)
  }

  /** handle_char_input: append to the field of the current text stage. */
  function CharInput(s: State, c: char): (r: State)
    ensures r.step == s.step && r.quit == s.quit && r.previewImage == s.previewImage
    ensures r.edition == s.edition && r.branch == s.branch && r.filesystem == s.filesystem
    ensures r.manualPartition == s.manualPartition
  {
    match s.step
    case 1 => s.(username := s.username + [c])
    case 2 => s.(password := s.password + [c])
    case 3 => s.(hostname := s.hostname + [c])
    case 8 => s.(disk := s.disk + [c])
    case _ => s
  }

  /** The Up key: a set cursor moves one towards 0 and stops there. */
  function Up(cursor: Option<nat>): Option<nat>
  {
    match cursor
    case None => None
    case Some(k) => if k > 0 then Some(k - 1) else cursor
  }

  /** The Down key: a set cursor moves one further, with no upper bound. */
  function Down(cursor: Option<nat>): Option<nat>
  {
    match cursor
    case None => None
    case Some(k) => Some(k + 1)
  }

  /**
   * The state changes made while drawing a frame: a list stage selects entry
   * 0 when nothing is selected, and a pending edition preview is shown once
   * and its flag cleared.
   */
  function Render(sc: Screen): Screen
  {
    Screen(sc.state.(previewImage := false),
           if IsListStep(sc.state.step) && sc.cursor.None? then Some(0) else sc.cursor)
  }

  datatype KeyCode = Char(c: char) | EnterKey | UpKey | DownKey | OtherKey
  datatype KeyKind = Press | Release | Repeat
  datatype Event = Key(code: KeyCode, kind: KeyKind) | NonKey

  /** The `match key.code` of run_app: 'q' is matched before any other character. */
  function HandleKey(sc: Screen, code: KeyCode): Screen
  {
    match code
    case Char(c) =>
      if c == 'q' then Screen(sc.state.(quit := true), sc.cursor)
      else Screen(CharInput(sc.state, c), sc.cursor)
    case EnterKey => Enter(sc.state, sc.cursor)
    case UpKey => Screen(sc.state, Up(sc.cursor))
    case DownKey => Screen(sc.state, Down(sc.cursor))
    case OtherKey => sc
  }

  /** Only key presses are handled; releases, repeats and other events are ignored. */
  function HandleEvent(sc: Screen, ev: Event): Screen
  {
    if ev.Key? && ev.kind == Press then HandleKey(sc, ev.code) else sc
  }

  /** One turn of run_app's loop before its two exit checks: draw, then handle one event. */
  function Iterate(sc: Screen, ev: Event): Screen
  {
    HandleEvent(Render(sc), ev)
  }

  /**
   * How run_app's loop ends on a finite stream of events: the quit flag is
   * checked first, then the hand-off to the installation; when the events run
   * out the loop is still waiting for input.
   */
  datatype Exit = Quit | HandOff | AwaitingInput

  datatype Outcome = Outcome(exit: Exit, screen: Screen, consumed: nat)

  function Run(sc: Screen, events: seq<Event>): (r: Outcome)
    ensures r.consumed <= |events|
    ensures r.exit == Quit ==> r.screen.state.quit && r.consumed > 0
    ensures r.exit == HandOff ==> !r.screen.state.quit && r.screen.state.step >= FinalStep && r.consumed > 0
    ensures r.exit == AwaitingInput ==> r.consumed == |events|
    decreases |events|
  {
    if events == [] then Outcome(AwaitingInput, sc, 0)
    else
      var next := Iterate(sc, events[0]);
      if next.state.quit then Outcome(Quit, next, 1)
      else if next.state.step >= FinalStep then Outcome(HandOff, next, 1)
      else
        var rest := Run(next, events[1..]);
        rest.(consumed := rest.consumed + 1)
  }

  // ---------------------------------------------------------------------------
  // The invariant of every state the wizard reaches from Initial()
  // ---------------------------------------------------------------------------

  /**
   * Every stage behind the current one has been filled in. The hostname keeps
   * the default as prefix (characters are appended to it), and no field holds
   * a 'q', since that key always quits.
   */
  predicate Inv(s: State)
  {
    && s.step <= FinalStep
    && (s.step >= 2 ==> s.username != [])
    && (s.step >= 3 ==> s.password != [])
    && (s.step >= 5 ==> s.edition.Some?)
    && (s.step >= 6 ==> s.branch.Some?)
    && (s.step >= 7 ==> s.filesystem.Some?)
    && (s.step >= 9 ==> s.disk != [])
    && DefaultHostname <= s.hostname
    && 'q' !in s.username && 'q' !in s.password && 'q' !in s.hostname && 'q' !in s.disk
  }

  /** The three choices perform_installation unwraps. */
  predicate Complete(s: State)
  {
    s.edition.Some? && s.branch.Some? && s.filesystem.Some?
  }

  /** The configuration handed to the installation is complete and all text fields are non-empty. */
  predicate Ready(s: State)
  {
    Complete(s) && s.username != [] && s.password != [] && s.hostname != [] && s.disk != []
  }

  lemma InitialInv()
    ensures Inv(Initial())
    ensures Initial().step == 0 && Initial().hostname == DefaultHostname
  {
  }

  /** One loop turn keeps the invariant. */
  lemma IteratePreservesInv(sc: Screen, ev: Event)
    requires Inv(sc.state)
    ensures Inv(Iterate(sc, ev).state)
  {
    var rs := Render(sc);
    assert Inv(rs.state);
    if ev.Key? && ev.kind == Press {
      match ev.code
      case Char(c) =>
        if c != 'q' {
          var s := rs.state;
          assert s.step == 3 ==> DefaultHostname <= s.hostname + [c];
        }
      case EnterKey =>
      case UpKey =>
      case DownKey =>
      case OtherKey =>
    }
  }

  /** The loop keeps the invariant however it ends. */
  lemma {:induction false} RunPreservesInv(sc: Screen, events: seq<Event>)
    requires Inv(sc.state)
    ensures Inv(Run(sc, events).screen.state)
    decreases |events|
  {
    if events != [] {
      IteratePreservesInv(sc, events[0]);
      var next := Iterate(sc, events[0]);
      if !next.state.quit && next.state.step < FinalStep {
        RunPreservesInv(next, events[1..]);
      }
    }
  }

  /** The step never goes back while the loop runs. */
  lemma {:induction false} RunNeverGoesBack(sc: Screen, events: seq<Event>)
    ensures Run(sc, events).screen.state.step >= sc.state.step
    decreases |events|
  {
    if events != [] {
      var next := Iterate(sc, events[0]);
      if !next.state.quit && next.state.step < FinalStep {
        RunNeverGoesBack(next, events[1..]);
      }
    }
  }

  /**
   * From the default state, a hand-off happens exactly at step 10 and with a
   * ready configuration, so none of the unwraps in perform_installation can panic.
   */
  lemma HandOffIsReady(events: seq<Event>)
    requires Run(Screen(Initial(), None), events).exit == HandOff
    ensures Run(Screen(Initial(), None), events).screen.state.step == FinalStep
    ensures Ready(Run(Screen(Initial(), None), events).screen.state)
  {
    InitialInv();
    RunPreservesInv(Screen(Initial(), None), events);
  }

  /** Nothing the user types reaches a field as 'q'; the hostname always begins with the default. */
  lemma TypedFieldsHaveNoQ(events: seq<Event>)
    ensures var s := Run(Screen(Initial(), None), events).screen.state;
      'q' !in s.username && 'q' !in s.password && 'q' !in s.disk && 'q' !in s.hostname
      && DefaultHostname <= s.hostname
  {
    InitialInv();
    RunPreservesInv(Screen(Initial(), None), events);
  }

  /** Because the hostname is never empty, the substitution of the default on step 3 never fires. */
  lemma HostnameDefaultUnreachable(s: State)
    requires Inv(s) && s.step == 3
    ensures Enter(s, None).state.hostname == s.hostname
  {
  }

  /** Pressing 'q' on the welcome stage ends the loop with nothing else changed. */
  lemma QuitOnWelcome(rest: seq<Event>)
    ensures var r := Run(Screen(Initial(), None), [Key(Char('q'), Press)] + rest);
      r.exit == Quit && r.consumed == 1 && r.screen.state == Initial().(quit := true)
  {
    var evs := [Key(Char('q'), Press)] + rest;
    assert evs[0] == Key(Char('q'), Press);
  }

  // ---------------------------------------------------------------------------
  // Properties of the single transitions
  // ---------------------------------------------------------------------------

  /** Enter on the username, password or disk stage advances iff that field is non-empty. */
  lemma EnterOnTextStage(s: State, cursor: Option<nat>)
    requires s.step == 1 || s.step == 2 || s.step == 8
    ensures var field := if s.step == 1 then s.username else if s.step == 2 then s.password else s.disk;
      var r := Enter(s, cursor);
      (field != [] ==> r.state == s.(step := s.step + 1)) &&
      (field == [] ==> r.state == s) &&
      r.cursor == None
  {
  }

  /** Enter on the hostname stage always advances, putting the default in place of an empty name. */
  lemma EnterOnHostnameStage(s: State, cursor: Option<nat>)
    requires s.step == 3
    ensures Enter(s, cursor).state.step == 4
    ensures Enter(s, cursor).state.hostname == if s.hostname == [] then DefaultHostname else s.hostname
    ensures Enter(s, cursor).state == s.(step := 4, hostname := Enter(s, cursor).state.hostname)
  {
  }

  /** Enter on the welcome and summary stages always advances. */
  lemma EnterOnWelcomeAndSummary(s: State, cursor: Option<nat>)
    requires s.step == 0 || s.step == 9
    ensures Enter(s, cursor) == Screen(s.(step := s.step + 1), None)
  {
  }

  /** The list stages map a set cursor positionally; an unmapped index changes nothing at all. */
  lemma EnterOnListStage(s: State, i: nat)
    requires IsListStep(s.step)
    ensures var r := Enter(s, Some(i));
      && (s.step == 4 && i < 8 ==>
            r == Screen(s.(edition := EditionAt(i), previewImage := true, step := 5), None))
      && (s.step == 5 && i < 3 ==> r == Screen(s.(branch := BranchAt(i), step := 6), None))
      && (s.step == 6 && i < 3 ==> r == Screen(s.(filesystem := FilesystemAt(i), step := 7), None))
      && (s.step == 7 ==> r == Screen(s.(manualPartition := i == 1, step := 8), None))
      && ((s.step == 4 && i >= 8) || (s.step == 5 && i >= 3) || (s.step == 6 && i >= 3) ==>
            r == Screen(s, Some(i)))
  {
  }

  /** An unset cursor on a list stage leaves the stage and resets nothing but the cursor. */
  lemma EnterOnListStageUnset(s: State)
    requires IsListStep(s.step)
    ensures Enter(s, None) == Screen(s, None)
  {
  }

  /** Down is undone by Up, and Up from a positive index is undone by Down. */
  lemma CursorMoves(cursor: Option<nat>)
    ensures Up(Down(cursor)) == cursor
    ensures cursor.Some? && cursor.value > 0 ==> Down(Up(cursor)) == cursor
    ensures Up(Some(0)) == Some(0)
    ensures cursor.Some? ==> Down(cursor) == Some(cursor.value + 1)
    ensures cursor == None ==> Up(cursor) == None && Down(cursor) == None
  {
  }

  /** A typed character lands at the end of the current stage's field and nowhere else. */
  lemma CharInputAppends(s: State, c: char)
    ensures var r := CharInput(s, c);
      && (s.step == 1 ==> r == s.(username := s.username + [c]))
      && (s.step == 2 ==> r == s.(password := s.password + [c]))
      && (s.step == 3 ==> r == s.(hostname := s.hostname + [c]))
      && (s.step == 8 ==> r == s.(disk := s.disk + [c]))
      && (!IsTextStep(s.step) ==> r == s)
  {
  }

  /** Drawing selects entry 0 of an unselected list, keeps any other cursor, and is idempotent. */
  lemma RenderCursor(sc: Screen)
    ensures IsListStep(sc.state.step) && sc.cursor.None? ==> Render(sc).cursor == Some(0)
    ensures sc.cursor.Some? ==> Render(sc).cursor == sc.cursor
    ensures !IsListStep(sc.state.step) ==> Render(sc).cursor == sc.cursor
    ensures Render(sc).state == sc.state.(previewImage := false)
    ensures Render(Render(sc)) == Render(sc)
  {
  }

  /** Inside the loop, Enter on a list stage always finds a set cursor, so it never waits on an unset one. */
  lemma LoopEnterOnListStage(sc: Screen)
    requires IsListStep(sc.state.step)
    ensures !EarlyReturn(Render(sc).state, Render(sc).cursor) ==>
      Iterate(sc, Key(EnterKey, Press)).state.step == sc.state.step + 1
  {
  }

  /** The quit flag wins over the hand-off: a turn that sets it ends the loop with Quit. */
  lemma QuitCheckedFirst(sc: Screen, events: seq<Event>)
    requires events != [] && Iterate(sc, events[0]).state.quit
    ensures Run(sc, events).exit == Quit && Run(sc, events).consumed == 1
  {
  }
}
