/**
 * The terminal application: InstallerState and ratatui's ListState as mutable
 * objects, and handle_enter, handle_char_input, draw_ui and run_app as the
 * methods that update them in place. Each is proved to make exactly the
 * change that its pure counterpart in Wizard describes; run_app is proved to
 * follow Wizard.Run event by event and, on the hand-off, to run the plan of
 * the configuration it reached.
 */
module App {
  import opened Common
  import opened Tables
  import opened Wizard
  import opened Actions
  import opened Pipeline
  import opened Installation

  /** InstallerState: the wizard's answers so far, updated in place. */
  class InstallerState {
    var step: nat
    var username: string
    var password: string
    var hostname: string
    var edition: Option<Edition>
    var branch: Option<DebianBranch>
    var filesystem: Option<Filesystem>
    var manualPartition: bool
    var disk: string
    var previewImage: bool
    var quit: bool

    /** The current field values as a Wizard.State. */
    function Snapshot(): State
      reads this
    {
      State(step, username, password, hostname, edition, branch, filesystem, manualPartition, disk, previewImage, quit)
    }

    /** InstallerState::default(). */
    constructor ()
      ensures Snapshot() == Initial()
    {
      step := 0;
      username := "";
      password := "";
      hostname := DefaultHostname;
      edition := None;
      branch := None;
      filesystem := None;
      manualPartition := false;
      disk := "";
      previewImage := false;
      quit := false;
    }
  }

  /** ratatui's ListState, reduced to the selected index. */
  class ListCursor {
    var selected: Option<nat>

    /** ListState::default(): nothing selected. */
    constructor ()
      ensures selected == None
    {
      selected := None;
    }

    method Select(index: Option<nat>)
      modifies this
      ensures selected == index
    {
      selected := index;
    }
  }

  /** handle_enter: advance the stage the state is on, then reset the selection. */
  method HandleEnter(state: InstallerState, list: ListCursor)
    modifies state, list
    ensures Screen(state.Snapshot(), list.selected) == Enter(old(state.Snapshot()), old(list.selected))
  {
    if state.step == 0 {
      state.step := state.step + 1;
    } else if state.step == 1 {
      if state.username != [] { state.step := state.step + 1; }
    } else if state.step == 2 {
      if state.password != [] { state.step := state.step + 1; }
    } else if state.step == 3 {
      if state.hostname == [] {
        state.hostname := DefaultHostname;
      }
      state.step := state.step + 1;
    } else if state.step == 4 {
      if list.selected.Some? {
        var e := EditionAt(list.selected.value);
        if e.None? { return; }
        state.edition := e;
        state.previewImage := true;
        state.step := state.step + 1;
      }
    } else if state.step == 5 {
      if list.selected.Some? {
        var b := BranchAt(list.selected.value);
        if b.None? { return; }
        state.branch := b;
        state.step := state.step + 1;
      }
    } else if state.step == 6 {
      if list.selected.Some? {
        var f := FilesystemAt(list.selected.value);
        if f.None? { return; }
        state.filesystem := f;
        state.step := state.step + 1;
      }
    } else if state.step == 7 {
      if list.selected.Some? {
        state.manualPartition := list.selected.value == 1;
        state.step := state.step + 1;
      }
    } else if state.step == 8 {
      if state.disk != [] { state.step := state.step + 1; }
    } else if state.step == 9 {
      state.step := state.step + 1;
    }
    list.Select(None);
  }

  /** handle_char_input: push the character onto the field of the current text stage. */
  method HandleCharInput(state: InstallerState, c: char)
    modifies state
    ensures state.Snapshot() == CharInput(old(state.Snapshot()), c)
  {
    if state.step == 1 {
      state.username := state.username + [c];
    } else if state.step == 2 {
      state.password := state.password + [c];
    } else if state.step == 3 {
      state.hostname := state.hostname + [c];
    } else if state.step == 8 {
      state.disk := state.disk + [c];
    }
  }

  /**
   * draw_ui's effect on the state: a list stage selects entry 0 when nothing
   * is selected, and a pending preview is shown and its flag cleared. Returns
   * the path of the preview image drawn in this frame, if any.
   */
  method DrawUi(state: InstallerState, list: ListCursor) returns (preview: Option<string>)
    modifies state, list
    ensures Screen(state.Snapshot(), list.selected) == Render(old(Screen(state.Snapshot(), list.selected)))
    ensures preview == if old(state.previewImage) then PreviewPath(old(state.edition)) else None
  {
    if IsListStep(state.step) && list.selected.None? {
      list.Select(Some(0));
    }
    preview := None;
    if state.previewImage {
      preview := PreviewPath(state.edition);
      state.previewImage := false;
    }
  }

  /** The body of run_app's `if let Event::Key(key)`: only presses are handled, and 'q' is matched first. */
  method DispatchEvent(state: InstallerState, list: ListCursor, ev: Event)
    modifies state, list
    ensures Screen(state.Snapshot(), list.selected) == HandleEvent(old(Screen(state.Snapshot(), list.selected)), ev)
  {
    if ev.Key? && ev.kind == Press {
      match ev.code
      case Char(c) =>
        if c == 'q' {
          state.quit := true;
        } else {
          HandleCharInput(state, c);
        }
      case EnterKey =>
        HandleEnter(state, list);
      case UpKey =>
        if list.selected.Some? && list.selected.value > 0 {
          list.Select(Some(list.selected.value - 1));
        }
      case DownKey =>
        if list.selected.Some? {
          list.Select(Some(list.selected.value + 1));
        }
      case OtherKey =>
    }
  }

  /**
   * run_app over the events the terminal delivers, in order: draw, handle one
   * event, stop on quit, hand off to perform_installation at step 10. When the
   * events run out the loop is still waiting for input. `ok` is false exactly
   * when the installation returned an error.
   */
  method RunApp(state: InstallerState, events: seq<Event>, host: Host) returns (exit: Exit, ok: bool)
    requires Inv(state.Snapshot())
    modifies state, host
    ensures var r := Run(Screen(old(state.Snapshot()), None), events);
      exit == r.exit && state.Snapshot() == r.screen.state
    ensures var r := Run(Screen(old(state.Snapshot()), None), events);
      r.exit == HandOff ==> Complete(r.screen.state) && host.Ran(old(host.log), Plan(r.screen.state), ok)
    ensures var r := Run(Screen(old(state.Snapshot()), None), events);
      r.exit != HandOff ==> host.log == old(host.log) && ok
  {
    var list := new ListCursor();
    ghost var start := Screen(state.Snapshot(), None);
    ghost var r0 := Run(start, events);
    RunPreservesInv(start, events);
    var i := 0;
    while i < |events|
      invariant i <= |events| && host.log == old(host.log)
      invariant var r := Run(Screen(state.Snapshot(), list.selected), events[i..]);
        r.exit == r0.exit && r.screen == r0.screen && r0.consumed == i + r.consumed
    {
      ghost var before := Screen(state.Snapshot(), list.selected);
      var ev := events[i];
      var _ := DrawUi(state, list);
      DispatchEvent(state, list, ev);
      assert Screen(state.Snapshot(), list.selected) == Iterate(before, ev);
      assert events[i..][0] == ev && events[i..][1..] == events[i + 1..];
      if state.quit {
        exit, ok := Quit, true;
        return;
      }
      if state.step >= FinalStep {
        exit := HandOff;
        ok := PerformInstallation(host, state.Snapshot());
        return;
      }
      i := i + 1;
    }
    exit, ok := AwaitingInput, true;
  }
}
