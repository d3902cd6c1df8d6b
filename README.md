# HackerOS installer, modelled in Dafny

This project models the terminal installer of HackerOS: `Installer/src/main.rs`.

The installer is a ratatui wizard. It asks, in ten stages, for:

- a username, a password and a hostname;
- an edition, a Debian branch and a filesystem;
- the partitioning mode and the target disk.

At step 10 it hands the answers to `perform_installation`. That function writes `sources.list`, partitions, formats and mounts, and bootstraps Debian. It then bind-mounts `/dev`, `/proc`, `/sys` and `/run`, and sets up the user and hostname inside the target. Next it runs `install_edition`, installs GRUB, unmounts everything, deletes the installer and reboots. Every step ends in `?`, so the first error ends the installation.

The project has seven modules, one per file:

| file | module | contents |
|---|---|---|
| `common.dfy` | `Common` | `Option` and `EndsWith` |
| `tables.dfy` | `Tables` | the fixed maps of the source |
| `wizard.dfy` | `Wizard` | the wizard as a pure state machine |
| `actions.dfy` | `Actions` | side effects as data, with the executor `Exec` |
| `pipeline.dfy` | `Pipeline` | the plans of `perform_installation` and `install_edition`, with their ordering facts |
| `install.dfy` | `Installation` | the imperative installation over a `Host` |
| `app.dfy` | `App` | the mutable `InstallerState` and list cursor, and `run_app` |

The tables in `Tables` are:

- the positional option lists;
- the branch codenames and the `sources.list` line;
- the formatter for each filesystem;
- the preview images and the desktop packages;
- the last `/`-segment of a URL;
- the `chmod +x` rule of `download_file`.

The imperative members are proved against the pure ones:

- `App.HandleEnter`, `App.HandleCharInput` and `App.DrawUi` make exactly the change that `Wizard.Enter`, `Wizard.CharInput` and `Wizard.Render` describe.
- `App.RunApp` ends exactly as `Wizard.Run` says. When it hands off, the host has run `Pipeline.Plan` of the configuration reached, under the `?` chain.
- Each installation method performs the actions of its plan in `Pipeline`, in order, and stops at the first failure. `Host.Ran` is the relation that says this, through `Actions.Exec`.

A `Command::status()?` call fails only when the program cannot be started; a non-zero exit status is not an error. So every action's outcome is an oracle `succeeds: nat -> bool`, asked with the action's position in the host's log.

## Model

| member | source | states |
|---|---|---|
| Wizard.Initial | Installer/src/main.rs:63-78 | InstallerState::default(); its properties are stated by Wizard.InitialInv. |
| Wizard.CharInput | Installer/src/main.rs:401-409 | handle_char_input. Typing never changes the step, the choices, the partition mode, the preview flag or the quit flag; Wizard.CharInputAppends states where the character goes. |
| Wizard.Up | Installer/src/main.rs:119-125 | The Up key; Wizard.CursorMoves states its effect. |
| Wizard.Down | Installer/src/main.rs:126-130 | The Down key; Wizard.CursorMoves states its effect. |
| Wizard.Render | Installer/src/main.rs:150-181 | The state changes made while drawing; Wizard.RenderCursor states them. |
| Wizard.HandleKey | Installer/src/main.rs:114-133 | The `match key.code` of run_app, with 'q' first; Wizard.QuitCheckedFirst and App.DispatchEvent rely on it. |
| Wizard.HandleEvent | Installer/src/main.rs:112-135 | Only key presses reach HandleKey; App.DispatchEvent is proved equal to it. |
| Wizard.Iterate | Installer/src/main.rs:109-135 | One draw and one event; Wizard.IteratePreservesInv states what it keeps. |
| Tables.EditionAt | Installer/src/main.rs:349-358 | An edition exists exactly for the indices 0..7, and the edition found at i sits at position i of the list. |
| Tables.BranchAt | Installer/src/main.rs:367-371 | A branch exists exactly for the indices 0..2, and the branch found at i sits at position i of the list. |
| Tables.FilesystemAt | Installer/src/main.rs:378-382 | A filesystem exists exactly for the indices 0..2, and the filesystem found at i sits at position i of the list. |
| Tables.Codename | Installer/src/main.rs:413-417 | The codename reads back to its branch through BranchOfCodename. |
| Tables.SourcesLine | Installer/src/main.rs:418 | The sources.list line; Tables.SourcesLineRoundTrip states its shape. |
| Tables.FormatterOf | Installer/src/main.rs:440-444 | The formatter per filesystem; Tables.FormatterInjective states that it tells them apart. |
| Tables.PreviewImage | Installer/src/main.rs:316-324 | The image file per edition; Tables.PreviewPathInjective states that each is distinct. |
| Tables.PreviewPath | Installer/src/main.rs:316-327 | There is a preview path exactly when an edition is chosen, and it lies under /usr/share/HackerOS-Installer/images/. |
| Tables.DesktopPackages | Installer/src/main.rs:522-563 | Every edition except Hydra has a package set to install. |
| Tables.NeedsChmod | Installer/src/main.rs:594 | The chmod condition of download_file; Pipeline.DownloadChmodIff states it. |
| Pipeline.Download | Installer/src/main.rs:587-598 | download_file as actions; Pipeline.DownloadChmodIff and Pipeline.DownloadActions state its shape. |
| Pipeline.BlueSteps | Installer/src/main.rs:532-551 | The Blue arm as phases; Installation.InstallBlue is proved to run them. |
| Pipeline.HydraSteps | Installer/src/main.rs:552-556 | The Hydra arm as phases; Pipeline.HydraEdition states them. |
| Pipeline.AtomicSteps | Installer/src/main.rs:564-581 | The Atomic arm as phases; Installation.InstallAtomic is proved to run them. |
| Pipeline.OwnSteps | Installer/src/main.rs:522-582 | The match over editions; Pipeline.PackageEditions and Pipeline.EditionInstallsPackages state its arms. |
| Pipeline.EditionPhase | Installer/src/main.rs:509-585 | install_edition as actions; Pipeline.EditionActions states the kinds of action it uses. |
| Pipeline.Phases | Installer/src/main.rs:411-507 | The fourteen phases of perform_installation in source order. |
| Pipeline.Plan | Installer/src/main.rs:411-507 | Everything perform_installation attempts; Pipeline.PlanOrder and Pipeline.HostSetupInOrder state its order. |
| Wizard.InitialInv | Installer/src/main.rs:63-78 | The default state has step 0 and hostname "hackeros", and satisfies the wizard invariant. |
| App.InstallerState.constructor | Installer/src/main.rs:63-78 | A new InstallerState holds exactly the default field values. |
| App.ListCursor.constructor | Installer/src/main.rs:107 | A new list state has nothing selected. |
| App.ListCursor.Select | Installer/src/main.rs:397 | Selecting sets the selected index to the given value. |
| Wizard.Enter | Installer/src/main.rs:336-399 | Enter raises the step by zero or one. An out-of-range cursor on the edition, branch or filesystem stage returns with the state and cursor unchanged. Every other call unsets the cursor. Steps of 10 and above change no field. Username, password, disk and the quit flag are never changed. |
| App.HandleEnter | Installer/src/main.rs:336-399 | The in-place handle_enter leaves state and cursor exactly as Wizard.Enter computes from the old ones, including the early return that keeps the cursor. |
| Wizard.EnterOnTextStage | Installer/src/main.rs:339-393 | On the username, password and disk stages, Enter advances by exactly one iff the field is non-empty; otherwise nothing changes. The cursor ends unset. |
| Wizard.EnterOnHostnameStage | Installer/src/main.rs:341-346 | On the hostname stage, Enter always advances to step 4. It puts "hackeros" in place of an empty hostname and changes nothing else. |
| Wizard.EnterOnWelcomeAndSummary | Installer/src/main.rs:338-394 | Steps 0 and 9 always advance by one and unset the cursor. |
| Wizard.EnterOnListStage | Installer/src/main.rs:347-392 | A set cursor i maps positionally: editions 0..7 (setting the preview flag), branches 0..2, filesystems 0..2. On step 7, manual partitioning is i == 1. An out-of-range i changes nothing, the cursor included. |
| Wizard.EnterOnListStageUnset | Installer/src/main.rs:348-391 | With no selection, Enter on a list stage keeps the state and leaves the cursor unset. |
| Tables.EditionTable | Installer/src/main.rs:349-358 | The edition table accepts exactly 0..7 and is a bijection onto the editions. |
| Tables.BranchTable | Installer/src/main.rs:367-371 | The branch table accepts exactly 0..2 and is a bijection onto the branches. |
| Tables.FilesystemTable | Installer/src/main.rs:378-382 | The filesystem table accepts exactly 0..2 and is a bijection onto the filesystems. |
| Wizard.CharInputAppends | Installer/src/main.rs:401-409 | A typed character is appended to username (step 1), password (2), hostname (3) or disk (8). Nothing else changes, and on other steps nothing changes at all. |
| App.HandleCharInput | Installer/src/main.rs:401-409 | The in-place push leaves the state exactly as Wizard.CharInput computes. |
| Wizard.CursorMoves | Installer/src/main.rs:119-130 | Up moves a set cursor k to k-1 only when k > 0. Down moves k to k+1 with no bound. Both do nothing to an unset cursor. Down then Up is the identity. |
| Wizard.RenderCursor | Installer/src/main.rs:228-230 | Drawing a list stage with nothing selected selects entry 0. Any other selection is kept. Drawing clears the preview flag and is idempotent. |
| App.DrawUi | Installer/src/main.rs:150-180 | draw_ui changes state and cursor as Wizard.Render says. It shows the edition's preview path exactly when the preview flag was set. |
| Tables.PreviewPathInjective | Installer/src/main.rs:316-327 | Each edition previews its own image, found under /usr/share/HackerOS-Installer/images/. |
| App.DispatchEvent | Installer/src/main.rs:111-134 | Only key presses are handled. 'q' sets the quit flag before any other character is matched. The effect is Wizard.HandleEvent. |
| Wizard.Run | Installer/src/main.rs:107-145 | The loop consumes at most the events given. It ends in Quit only with the quit flag set, and in HandOff only unquit at step 10 or above. Otherwise it has consumed every event. |
| App.RunApp | Installer/src/main.rs:102-148 | run_app ends as Wizard.Run does, with the same final state. On the hand-off, the host has run Plan of that state under the `?` chain. Otherwise the host's log is unchanged. |
| Wizard.QuitCheckedFirst | Installer/src/main.rs:137-144 | A turn that sets the quit flag ends the loop with Quit, even at step 10. |
| Wizard.QuitOnWelcome | Installer/src/main.rs:114-116 | Pressing 'q' on the welcome stage ends the loop after one event, with only the quit flag changed. |
| Wizard.IteratePreservesInv | Installer/src/main.rs:107-134 | One draw-and-handle turn keeps the invariant: earlier stages are filled in, the hostname keeps the "hackeros" prefix, and no field holds 'q'. |
| Wizard.RunPreservesInv | Installer/src/main.rs:107-145 | The whole loop keeps the invariant, however it ends. |
| Wizard.RunNeverGoesBack | Installer/src/main.rs:107-145 | The step never decreases while the loop runs. |
| Wizard.HandOffIsReady | Installer/src/main.rs:140-143 | From the default state, a hand-off happens at exactly step 10, with edition, branch and filesystem chosen and all text fields non-empty. So the unwraps in perform_installation cannot panic. |
| Wizard.TypedFieldsHaveNoQ | Installer/src/main.rs:114-130 | From the default state, no field ever contains 'q', and the hostname always starts with "hackeros". |
| Wizard.HostnameDefaultUnreachable | Installer/src/main.rs:342-344 | In a reachable state on step 3 the hostname is never empty, so the default substitution never fires. |
| Wizard.LoopEnterOnListStage | Installer/src/main.rs:228-230 | Inside the loop, Enter on a list stage always finds a selection, because drawing set one. Unless the selection is out of range, the step advances. |
| Tables.CodenameRoundTrip | Installer/src/main.rs:413-417 | Stable, Testing and Unstable map to trixie, forky and sid, and the map is inverted by BranchOfCodename. |
| Tables.SourcesLineRoundTrip | Installer/src/main.rs:418 | The sources.list line is the Debian mirror prefix, the codename and " main"; the branch can be read back from it. |
| Tables.SourcesLineInjective | Installer/src/main.rs:418 | Distinct branches write distinct sources lines. |
| Tables.FormatterInjective | Installer/src/main.rs:440-444 | Distinct filesystems use distinct formatter programs. |
| Tables.LastSegment | Installer/src/main.rs:576 | The result is the suffix of the URL after its last '/': it holds no '/', and it is the whole string when there is no '/'. |
| Tables.LastSegmentAfterSlash | Installer/src/main.rs:576 | The last segment of `dir + "/" + name`, for a name without '/', is that name. |
| Tables.LastSegmentsAfterSlash | Installer/src/main.rs:570-576 | Every URL in a list of `dir/name` URLs has its name as last segment. |
| Tables.ChmodForPlainNames | Installer/src/main.rs:594 | A file name without '/' or '.' put in a directory is marked executable. |
| Pipeline.DownloadChmodIff | Installer/src/main.rs:587-598 | A download always fetches first. chmod +x follows iff the path ends neither in '/' nor in ".desktop". |
| Installation.DownloadFile | Installer/src/main.rs:587-598 | download_file runs the fetch and then, when the path needs it, the chmod. It stops if the fetch fails. |
| Actions.Exec | Installer/src/main.rs:411-507 | The `?` chain: a completed run attempted the whole plan; a failed one ends with the action the oracle refused. |
| Actions.ExecStopsAtFirstFailure | Installer/src/main.rs:411-507 | What is attempted is a prefix of the plan, every attempt but the last succeeded, and the run completes iff every action succeeds. |
| Actions.ExecAppend | Installer/src/main.rs:411-507 | Running two plans one after the other is running the first, then the second only if the first completed. |
| Actions.ExecAll | Installer/src/main.rs:411-507 | A plan whose every attempt succeeds completes, having attempted all of it. |
| Actions.ExecFailAt | Installer/src/main.rs:411-507 | If the first refused attempt is number i, the run ends right after action i of the plan. |
| Actions.OnlyAfterSuccess | Installer/src/main.rs:411-507 | An action that occurs first at index k is attempted only after the k actions before it all succeeded. |
| Actions.FlattenMember | Installer/src/main.rs:411-507 | An action is in a plan made of phases iff it is in one of the phases. |
| Actions.FlattenAll | Installer/src/main.rs:411-507 | A property of every action of every phase holds of every action of the plan. |
| Installation.Host.constructor | Installer/src/main.rs:411 | A new host has an empty log and the given oracle. |
| Installation.Host.Do | Installer/src/main.rs:420-422 | Performing an action appends it to the log; the oracle decides its success. |
| Installation.Host.Perform | Installer/src/main.rs:446-451 | A run of `?` statements performs its actions in order, stopping at the first failure: exactly Exec of the list. |
| Installation.PerformInstallation | Installer/src/main.rs:411-507 | perform_installation on a configuration with all three choices made performs Plan, in order, under the `?` chain. |
| Installation.BindMounts | Installer/src/main.rs:458-461 | The bind loop creates and bind-mounts /dev, /proc, /sys and /run in turn, stopping at the first failure. |
| Installation.UnmountBinds | Installer/src/main.rs:492-494 | The cleanup loop unmounts /mnt/dev, /mnt/proc, /mnt/sys and /mnt/run in turn, stopping at the first failure. |
| Installation.InstallEdition | Installer/src/main.rs:509-585 | install_edition copies the overlay and then runs the edition's own steps, as EditionPhase lists them. |
| Installation.InstallOwn | Installer/src/main.rs:522-582 | The match over editions runs exactly the steps OwnSteps lists for the edition. |
| Installation.InstallBlue | Installer/src/main.rs:532-551 | The Blue arm creates its home, downloads the six components, the session binary and its .desktop entry, then installs sddm. |
| Installation.DownloadBlueComponents | Installer/src/main.rs:546-548 | The component loop downloads each component into `home/name`, stopping at the first failure. |
| Installation.InstallHydra | Installer/src/main.rs:552-556 | The Hydra arm clones the look-and-feel repository, then copies its files into /mnt/. |
| Installation.InstallAtomic | Installer/src/main.rs:564-581 | The Atomic arm downloads hammer, creates its library directory, downloads the four helpers, installs Plasma, then runs `hammer setup`. |
| Installation.DownloadHammerComponents | Installer/src/main.rs:574-578 | The helper loop stores each helper in the library directory under its URL's last segment. |
| Installation.PlanRight | Installer/src/main.rs:411-507 | Proof helper: regroups Plan as the fourteen phases of perform_installation, in source order, nested to the right as PerformInstallation runs them. |
| Pipeline.BindStepsInOrder | Installer/src/main.rs:458-494 | Both loops visit /dev, /proc, /sys and /run in that order; unmounting uses the mount order, not its reverse. |
| Pipeline.PhasesInParts | Installer/src/main.rs:411-507 | Proof helper: regroups the fourteen phases into the host setup, the bind mounts, the work inside the target and the teardown. |
| Pipeline.HostSetupInOrder | Installer/src/main.rs:413-454 | The plan opens with the sources.list write, then apt update, the partitioner for the chosen mode, the chosen formatter, and as ninth action debootstrap of the codename. |
| Pipeline.PlanOrder | Installer/src/main.rs:411-507 | Every chroot runs after the four bind mounts and before the teardown. Nothing is bind-mounted after the first chroot. Nothing is unmounted, removed or rebooted before the teardown. |
| Pipeline.PartsOrder | Installer/src/main.rs:411-507 | In a plan assembled from the four parts, the kinds of action sit where the parts put them. |
| Pipeline.HostSetupKinds | Installer/src/main.rs:413-454 | The host setup is nine preparation actions: no chroot, bind mount, unmount, removal or reboot. |
| Pipeline.BindKinds | Installer/src/main.rs:458-461 | The bind loop is eight actions, none of which is a chroot, an unmount, a removal or a reboot. |
| Pipeline.InTargetKinds | Installer/src/main.rs:464-489 | The work inside the target starts with `apt update` and never bind-mounts, unmounts, removes or reboots. Each of its actions is a chroot command, the write of the hostname to /mnt/etc/hostname, or one of install_edition's actions. |
| Pipeline.TeardownKinds | Installer/src/main.rs:492-504 | The teardown is ten actions with no chroot and no bind mount. |
| Pipeline.TeardownInOrder | Installer/src/main.rs:492-504 | The teardown is the four bind unmounts, then /mnt/boot, then /mnt, then the three removals, then reboot. |
| Pipeline.EndsWithTeardown | Installer/src/main.rs:492-504 | A plan that ends with the teardown, and removes and reboots nothing before it, removes the assets and reboots once each, at the end. |
| Pipeline.CleanupPositions | Installer/src/main.rs:499-504 | The installer's removal comes fourth from last and the reboot last; neither occurs earlier. |
| Pipeline.UninstallOnlyAfterSuccess | Installer/src/main.rs:499 | The installer deletes itself only once every earlier action succeeded. |
| Pipeline.RebootOnlyAfterSuccess | Installer/src/main.rs:504 | The machine reboots only once every other action succeeded. |
| Pipeline.EditionActions | Installer/src/main.rs:509-585 | install_edition only copies, creates directories, downloads, clones and runs chroot or chmod. |
| Pipeline.OwnStepsActions | Installer/src/main.rs:522-582 | Each edition arm uses only those kinds of action. |
| Pipeline.BlueStepsActions | Installer/src/main.rs:532-551 | The Blue arm uses only those kinds of action. |
| Pipeline.AtomicStepsActions | Installer/src/main.rs:564-581 | The Atomic arm uses only those kinds of action. |
| Pipeline.DownloadActions | Installer/src/main.rs:587-598 | Every action of a download is either the fetch of the URL into the path or `chmod +x` of that same path. |
| Pipeline.BlueDownloadActions | Installer/src/main.rs:546-548 | Every action of the Blue component loop is a fetch or a chmod. |
| Pipeline.HammerDownloadActions | Installer/src/main.rs:574-578 | Every action of the hammer helper loop is a fetch or a chmod. |
| Pipeline.PackageEditions | Installer/src/main.rs:523-563 | Official, Gnome, Xfce, Cybersecurity and Wayfire copy the overlay and install exactly their package set. |
| Pipeline.HydraEdition | Installer/src/main.rs:552-556 | Hydra copies the overlay, clones and copies its files, and runs no chroot. |
| Pipeline.EditionInstallsPackages | Installer/src/main.rs:522-581 | An edition with a package set installs it inside the target; Hydra runs no chroot at all. |
| Pipeline.BlueComponentDownloads | Installer/src/main.rs:546-548 | Each Blue component is fetched and then marked executable. |
| Pipeline.BlueComponentChmod | Installer/src/main.rs:547 | A Blue component path with a plain name needs chmod. |
| Pipeline.BlueSessionDownloads | Installer/src/main.rs:549-550 | The session binary is marked executable; its .desktop file is not. |
| Pipeline.BlueDoubleSlash | Installer/src/main.rs:547 | The component path has two slashes between the Blue home and the name. |
| Pipeline.HammerNamesAreLastSegments | Installer/src/main.rs:569-576 | The last segment of each helper's URL is the helper's name. |
| Pipeline.HammerDownloads | Installer/src/main.rs:574-578 | Each helper is fetched into the library directory under its name, and marked executable. |

## Left out

- Rendering, layout, styles and the terminal's raw mode (`setup_terminal`, `teardown_terminal`, the `draw_*` widgets): these are UI. Only the state changes of `draw_ui` are modelled: the cursor initialisation and the preview flag.
- `main` and the tokio runtime. `main` builds the default state and calls `run_app`. `App.RunApp` requires the wizard invariant, which the default state satisfies (`Wizard.InitialInv`).
- I/O errors of `terminal.draw`, `event::read` and `Terminal::new`. Events are a finite sequence given as a parameter; when it runs out, the loop counts as waiting for input.
- The external programs, HTTP downloads, the git clone, `copy_dir` and the file-system calls. Each is one abstract action whose success is an oracle. The chunked body transfer of `download_file` is folded into its `Fetch` action. `copy_dir`'s recursive walk is one `CopyDir` action.
- The ProgressBar shown during automatic partitioning: it prints only.
- The shell meaning of the command lines given to `chroot` (quoting, injection through the username or password): each command is kept as the string the source builds.
- The unwraps of `perform_installation`: `Installation.PerformInstallation` requires that edition, branch and filesystem are chosen. `Wizard.HandOffIsReady` shows that the loop only hands off such a configuration.
- The ratatui `List` widget's own handling of the selection while it renders. The model assumes that drawing never changes a selection that is already set, even one past the end of the list. That is how an out-of-range index can reach the early returns at lines 358, 371 and 382 (Down has no upper bound, line 128). A ratatui version that clamps the selection while rendering would make those returns unreachable; the version is not part of this model.
- The `usize` width of the selection: `selected + 1` at line 128 is unbounded `nat` arithmetic in the model, so a wrap-around or overflow panic at `usize::MAX` is not modelled.

## Notes on the source and the model

- `draw_ui` takes `state: &InstallerState` but clears `state.preview_image` at line 179. As written this does not compile. The model follows the evident intent: the flag is cleared once the preview is drawn.
- The cleanup loop at lines 492-494 unmounts the bind mounts in the same order it mounted them (/dev first), not in reverse. The model follows the code (`Pipeline.BindStepsInOrder`).
- The Zfs formatter is the single program name "zpool create" (line 443). It is kept as written.
- `grub-install` is always given `/dev/sda`, and the partitions are always `/dev/sda1` and `/dev/sda2`, whatever disk was entered.
- The edition match of install_edition is a separate method, `Installation.InstallOwn`, and the key match of run_app is a separate method, `App.DispatchEvent`.
- 'q' is matched before any other character, so no field can ever hold a 'q'. The hostname starts as "hackeros" and typing appends to it.
