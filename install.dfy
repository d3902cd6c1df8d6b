/**
 * perform_installation, install_edition and download_file as imperative code
 * over a host that performs one action at a time. Each method is proved to
 * perform, in order, exactly the actions that its plan in Pipeline lists,
 * under the `?` chain that the executor Exec describes.
 */
module Installation {
  import opened Common
  import opened Tables
  import opened Wizard
  import opened Actions
  import opened Pipeline

  /**
   * The machine the installer runs on. Every action it performs is appended
   * to `log`; whether an attempt succeeds is the oracle `succeeds`, asked with
   * the attempt's position in the log.
   */
  class Host {
    var log: seq<Action>
    const succeeds: nat -> bool

    constructor (succeeds: nat -> bool)
      ensures log == [] && this.succeeds == succeeds
    {
      log := [];
      this.succeeds := succeeds;
    }

    /** Performs one action and reports whether it succeeded. */
    method Do(a: Action) returns (ok: bool)
      modifies this
      ensures log == old(log) + [a] && ok == succeeds(|old(log)|)
    {
      ok := succeeds(|log|);
      log := log + [a];
    }

    /** Since the log was `before`, the host ran `plan` under the `?` chain; `ok` says whether all of it succeeded. */
    ghost predicate Ran(before: seq<Action>, plan: seq<Action>, ok: bool)
      reads this
    {
      var t := Exec(plan, succeeds, |before|);
      log == before + t.attempted && ok == t.completed
    }

    /** A run of statements each ending in `?`: performs the actions in order and stops at the first failure. */
    method Perform(plan: seq<Action>) returns (ok: bool)
      modifies this
      ensures Ran(old(log), plan, ok)
    {
      ghost var before := log;
      var i := 0;
      while i < |plan|
        invariant i <= |plan| && log == before + plan[..i] && Succeeded(succeeds, |before|, i)
      {
        ok := Do(plan[i]);
        assert plan[..i] + [plan[i]] == plan[..i + 1];
        if !ok {
          ExecFailAt(plan, succeeds, |before|, i);
          return;
        }
        i := i + 1;
      }
      assert plan[..i] == plan;
      ExecAll(plan, succeeds, |before|);
      ok := true;
    }
  }

  lemma Assoc(a: seq<Action>, b: seq<Action>, c: seq<Action>)
    ensures (a + b) + c == a + (b + c)
  {
  }

  // ---------------------------------------------------------------------------
  // Composing runs. A method that runs the pieces p0, p1, ... of a plan keeps
  // `done`, the pieces already run and succeeded, and the invariant that the
  // plan is `done` followed by the remaining pieces.
  // ---------------------------------------------------------------------------

  /** Nothing has run yet. */
  lemma Start(host: Host, plan: seq<Action>)
    ensures [] + plan == plan && host.log + [] == host.log && Succeeded(host.succeeds, |host.log|, 0)
  {
  }

  /** A piece that completed after `done` extends what has run and succeeded. */
  lemma Extend(host: Host, before: seq<Action>, done: seq<Action>, p: seq<Action>)
    requires Succeeded(host.succeeds, |before|, |done|) && host.Ran(before + done, p, true)
    ensures host.log == before + (done + p) && Succeeded(host.succeeds, |before|, |done + p|)
  {
    ExecStopsAtFirstFailure(p, host.succeeds, |before| + |done|);
    Assoc(before, done, p);
  }

  /** A piece that failed after `done` ends the run of `done`, the piece and whatever follows it. */
  lemma Fail(host: Host, before: seq<Action>, done: seq<Action>, p: seq<Action>, rest: seq<Action>)
    requires Succeeded(host.succeeds, |before|, |done|) && host.Ran(before + done, p, false)
    ensures host.Ran(before, done + (p + rest), false)
  {
    var t := Exec(p, host.succeeds, |before| + |done|);
    ExecAll(done, host.succeeds, |before|);
    ExecAppend(done, p + rest, host.succeeds, |before|);
    ExecAppend(p, rest, host.succeeds, |before| + |done|);
    Assoc(before, done, t.attempted);
  }

  /** A last piece that failed after `done` ends the run of `done` and the piece. */
  lemma FailLast(host: Host, before: seq<Action>, done: seq<Action>, p: seq<Action>)
    requires Succeeded(host.succeeds, |before|, |done|) && host.Ran(before + done, p, false)
    ensures host.Ran(before, done + p, false)
  {
    Fail(host, before, done, p, []);
    assert p + [] == p;
  }

  /** Everything ran and every attempt succeeded. */
  lemma Finish(host: Host, before: seq<Action>, plan: seq<Action>)
    requires Succeeded(host.succeeds, |before|, |plan|) && host.log == before + plan
    ensures host.Ran(before, plan, true)
  {
    ExecAll(plan, host.succeeds, |before|);
  }

  lemma FlattenTwo(ps: seq<seq<Action>>)
    requires |ps| == 2
    ensures Flatten(ps) == ps[0] + ps[1]
  {
    PhasesFrom0(ps);
    FlattenFrom(ps, 0); FlattenFrom(ps, 1);
    PhasesDone(ps);
    assert ps[1] + [] == ps[1];
  }

  lemma FlattenOne(p: seq<Action>)
    ensures Flatten([p]) == p
  {
    assert [p][1..] == [];
    assert p + [] == p;
  }

  lemma FlattenFiveRight(ps: seq<seq<Action>>)
    requires |ps| == 5
    ensures Flatten(ps) == ps[0] + (ps[1] + (ps[2] + (ps[3] + ps[4])))
  {
    PhasesFrom0(ps);
    FlattenFrom(ps, 0); FlattenFrom(ps, 1); FlattenFrom(ps, 2); FlattenFrom(ps, 3); FlattenFrom(ps, 4);
    PhasesDone(ps);
    assert ps[4] + [] == ps[4];
  }

  /** Seven phases from phase k on, followed by the rest of the plan. */
  lemma FlattenSevenFrom(ps: seq<seq<Action>>, k: nat)
    requires k + 7 <= |ps|
    ensures Flatten(ps[k..]) == ps[k] + (ps[k + 1] + (ps[k + 2] + (ps[k + 3] + (ps[k + 4] + (ps[k + 5] +
      (ps[k + 6] + Flatten(ps[k + 7..])))))))
  {
    FlattenFrom(ps, k); FlattenFrom(ps, k + 1); FlattenFrom(ps, k + 2); FlattenFrom(ps, k + 3);
    FlattenFrom(ps, k + 4); FlattenFrom(ps, k + 5); FlattenFrom(ps, k + 6);
  }

  lemma FlattenFourteenRight(ps: seq<seq<Action>>)
    requires |ps| == 14
    ensures Flatten(ps) == ps[0] + (ps[1] + (ps[2] + (ps[3] + (ps[4] + (ps[5] + (ps[6] + (ps[7] + (ps[8] +
      (ps[9] + (ps[10] + (ps[11] + (ps[12] + ps[13]))))))))))))
  {
    PhasesFrom0(ps);
    FlattenSevenFrom(ps, 0);
    FlattenSevenFrom(ps, 7);
    PhasesDone(ps);
    assert ps[13] + [] == ps[13];
  }

  /** The plan of perform_installation as its fourteen phases, run from left to right. */
  lemma PlanRight(s: State)
    requires Complete(s)
    ensures Plan(s) == SourcesPhase(s.branch.value) + (PartitionPhase(s) + (FormatPhase(s.filesystem.value) +
      (MountPhase() + (BootstrapPhase(s.branch.value) + (Flatten(BindSteps()) + (UserSetupPhase(s) +
      (HostnamePhase(s) + (EditionPhase(s.edition.value, s) + (GrubPhase() + (Flatten(UnbindSteps()) +
      (UnmountTargetPhase() + (SelfUninstallPhase() + RebootPhase()))))))))))))
  {
    FlattenFourteenRight(Phases(s, EditionPhase(s.edition.value, s)));
  }

  // ---------------------------------------------------------------------------
  // download_file and install_edition
  // ---------------------------------------------------------------------------

  /** Fetches `url` into `path`, then marks the file executable unless the path ends in '/' or ".desktop". */
  method DownloadFile(host: Host, url: string, path: string) returns (ok: bool)
    modifies host
    ensures host.Ran(old(host.log), Download(url, path), ok)
  {
    ghost var before := host.log;
    ghost var fetch, chmod := [Fetch(url, path)], if NeedsChmod(path) then [Command("chmod", ["+x", path], false)] else [];
    Start(host, fetch + chmod);
    ok := host.Perform([Fetch(url, path)]);
    if !ok { Fail(host, before, [], fetch, chmod); return; }
    Extend(host, before, [], fetch);
    if !EndsWith(path, "/") && !EndsWith(path, ".desktop") {
      ok := host.Perform([Command("chmod", ["+x", path], false)]);
      if !ok { FailLast(host, before, fetch, chmod); return; }
      Extend(host, before, fetch, chmod);
    } else {
      assert fetch + chmod == fetch;
    }
    Finish(host, before, fetch + chmod);
  }

  /** The loop over the six Blue Environment components, each stored under the user's Blue home. */
  method DownloadBlueComponents(host: Host, username: string) returns (ok: bool)
    modifies host
    ensures host.Ran(old(host.log), Flatten(BlueDownloadSteps(username)), ok)
  {
    ghost var before := host.log;
    ghost var ps := BlueDownloadSteps(username);
    ghost var done: seq<Action> := [];
    Start(host, Flatten(ps));
    PhasesFrom0(ps);
    var home := BlueHome(username);
    for i := 0 to |BlueComponents|
      invariant host.log == before + done && Succeeded(host.succeeds, |before|, |done|)
      invariant Flatten(ps) == done + Flatten(ps[i..])
    {
      FlattenFrom(ps, i);
      var (name, url) := BlueComponents[i];
      ok := DownloadFile(host, url, home + "/" + name);
      if !ok { Fail(host, before, done, ps[i], Flatten(ps[i + 1..])); return; }
      Extend(host, before, done, ps[i]);
      Assoc(done, ps[i], Flatten(ps[i + 1..]));
      done := done + ps[i];
    }
    PhasesDone(ps);
    assert done + [] == done;
    Finish(host, before, done);
    ok := true;
  }

  /** The Blue arm: its home directory, the components, the session binary and entry, then sddm. */
  method InstallBlue(host: Host, username: string) returns (ok: bool)
    modifies host
    ensures host.Ran(old(host.log), Flatten(BlueSteps(username)), ok)
  {
    ghost var before := host.log;
    ghost var ps := BlueSteps(username);
    FlattenFiveRight(ps);
    ghost var p0, p1, p2, p3, p4 := ps[0], ps[1], ps[2], ps[3], ps[4];
    Start(host, Flatten(ps));
    ghost var done: seq<Action> := [];
    var home := BlueHome(username);
    ok := host.Perform([Mkdir(home)]);
    if !ok { Fail(host, before, done, p0, p1 + (p2 + (p3 + p4))); return; }
    Extend(host, before, done, p0);
    Assoc(done, p0, p1 + (p2 + (p3 + p4)));
    done := done + p0;
    ok := DownloadBlueComponents(host, username);
    if !ok { Fail(host, before, done, p1, p2 + (p3 + p4)); return; }
    Extend(host, before, done, p1);
    Assoc(done, p1, p2 + (p3 + p4));
    done := done + p1;
    ok := DownloadFile(host, BlueSessionUrl, BlueSessionPath);
    if !ok { Fail(host, before, done, p2, p3 + p4); return; }
    Extend(host, before, done, p2);
    Assoc(done, p2, p3 + p4);
    done := done + p2;
    ok := DownloadFile(host, BlueDesktopUrl, BlueDesktopPath);
    if !ok { Fail(host, before, done, p3, p4); return; }
    Extend(host, before, done, p3);
    Assoc(done, p3, p4);
    done := done + p3;
    ok := host.Perform([AptInstall(BluePackages)]);
    if !ok { FailLast(host, before, done, p4); return; }
    Extend(host, before, done, p4);
    done := done + p4;
    Finish(host, before, done);
  }

  /** The loop over the four hammer helpers, each stored in the library directory under its URL's last segment. */
  method DownloadHammerComponents(host: Host) returns (ok: bool)
    modifies host
    ensures host.Ran(old(host.log), Flatten(HammerDownloadSteps()), ok)
  {
    ghost var before := host.log;
    ghost var ps := HammerDownloadSteps();
    ghost var done: seq<Action> := [];
    Start(host, Flatten(ps));
    PhasesFrom0(ps);
    HammerNamesAreLastSegments();
    for i := 0 to |HammerComponents|
      invariant host.log == before + done && Succeeded(host.succeeds, |before|, |done|)
      invariant Flatten(ps) == done + Flatten(ps[i..])
    {
      FlattenFrom(ps, i);
      var url := HammerComponents[i];
      var name := LastSegment(url);
      ok := DownloadFile(host, url, HammerLib + name);
      if !ok { Fail(host, before, done, ps[i], Flatten(ps[i + 1..])); return; }
      Extend(host, before, done, ps[i]);
      Assoc(done, ps[i], Flatten(ps[i + 1..]));
      done := done + ps[i];
    }
    PhasesDone(ps);
    assert done + [] == done;
    Finish(host, before, done);
    ok := true;
  }

  /** The Atomic arm: the hammer binary, its library directory and helpers, Plasma, then `hammer setup`. */
  method InstallAtomic(host: Host) returns (ok: bool)
    modifies host
    ensures host.Ran(old(host.log), Flatten(AtomicSteps()), ok)
  {
    ghost var before := host.log;
    ghost var ps := AtomicSteps();
    FlattenFiveRight(ps);
    ghost var p0, p1, p2, p3, p4 := ps[0], ps[1], ps[2], ps[3], ps[4];
    Start(host, Flatten(ps));
    ghost var done: seq<Action> := [];
    ok := DownloadFile(host, HammerUrl, HammerPath);
    if !ok { Fail(host, before, done, p0, p1 + (p2 + (p3 + p4))); return; }
    Extend(host, before, done, p0);
    Assoc(done, p0, p1 + (p2 + (p3 + p4)));
    done := done + p0;
    ok := host.Perform([Mkdir(HammerLib)]);
    if !ok { Fail(host, before, done, p1, p2 + (p3 + p4)); return; }
    Extend(host, before, done, p1);
    Assoc(done, p1, p2 + (p3 + p4));
    done := done + p1;
    ok := DownloadHammerComponents(host);
    if !ok { Fail(host, before, done, p2, p3 + p4); return; }
    Extend(host, before, done, p2);
    Assoc(done, p2, p3 + p4);
    done := done + p2;
    ok := host.Perform([AptInstall(PlasmaPackages)]);
    if !ok { Fail(host, before, done, p3, p4); return; }
    Extend(host, before, done, p3);
    Assoc(done, p3, p4);
    done := done + p3;
    ok := host.Perform([Chroot("hammer setup")]);
    if !ok { FailLast(host, before, done, p4); return; }
    Extend(host, before, done, p4);
    done := done + p4;
    Finish(host, before, done);
  }

  /** The Hydra arm: clone the look-and-feel repository, then copy its files into the target. */
  method InstallHydra(host: Host) returns (ok: bool)
    modifies host
    ensures host.Ran(old(host.log), Flatten(HydraSteps()), ok)
  {
    FlattenTwo(HydraSteps());
    ok := host.Perform([Clone(HydraRepo, HydraClone), CopyDir(HydraFiles, OverlayTarget)]);
  }

  /** The edition's own arm of install_edition. */
  method InstallOwn(host: Host, e: Edition, s: State) returns (ok: bool)
    modifies host
    ensures host.Ran(old(host.log), Flatten(OwnSteps(e, s)), ok)
  {
    match e
    case Official =>
      FlattenOne([AptInstall(PlasmaPackages)]);
      ok := host.Perform([AptInstall(PlasmaPackages)]);
    case Gnome =>
      FlattenOne([AptInstall(GnomePackages)]);
      ok := host.Perform([AptInstall(GnomePackages)]);
    case Xfce =>
      FlattenOne([AptInstall(XfcePackages)]);
      ok := host.Perform([AptInstall(XfcePackages)]);
    case Blue =>
      ok := InstallBlue(host, s.username);
    case Hydra =>
      ok := InstallHydra(host);
    case Cybersecurity =>
      FlattenOne([AptInstall(CybersecurityPackages)]);
      ok := host.Perform([AptInstall(CybersecurityPackages)]);
    case Wayfire =>
      FlattenOne([AptInstall(WayfirePackages)]);
      ok := host.Perform([AptInstall(WayfirePackages)]);
    case Atomic =>
      ok := InstallAtomic(host);
  }

  /** install_edition: the common overlay copy into the target, then the edition's own arm. */
  method InstallEdition(host: Host, e: Edition, s: State) returns (ok: bool)
    modifies host
    ensures host.Ran(old(host.log), EditionPhase(e, s), ok)
  {
    ghost var before := host.log;
    ghost var copy, own := [CopyDir(OverlaySource, OverlayTarget)], Flatten(OwnSteps(e, s));
    Start(host, copy + own);
    ok := host.Perform([CopyDir(OverlaySource, OverlayTarget)]);
    if !ok { Fail(host, before, [], copy, own); return; }
    Extend(host, before, [], copy);
    ok := InstallOwn(host, e, s);
    if !ok { FailLast(host, before, copy, own); return; }
    Extend(host, before, copy, own);
    Finish(host, before, copy + own);
  }

  // ---------------------------------------------------------------------------
  // perform_installation
  // ---------------------------------------------------------------------------

  /** The first loop over /dev, /proc, /sys and /run: create the mount point in the target, then bind-mount. */
  method BindMounts(host: Host) returns (ok: bool)
    modifies host
    ensures host.Ran(old(host.log), Flatten(BindSteps()), ok)
  {
    ghost var before := host.log;
    ghost var ps := BindSteps();
    ghost var done: seq<Action> := [];
    Start(host, Flatten(ps));
    PhasesFrom0(ps);
    for i := 0 to |BindDirs|
      invariant host.log == before + done && Succeeded(host.succeeds, |before|, |done|)
      invariant Flatten(ps) == done + Flatten(ps[i..])
    {
      FlattenFrom(ps, i);
      var dir := BindDirs[i];
      ok := host.Perform([Mkdir(Target + dir), Command("mount", ["--bind", dir, Target + dir], false)]);
      if !ok { Fail(host, before, done, ps[i], Flatten(ps[i + 1..])); return; }
      Extend(host, before, done, ps[i]);
      Assoc(done, ps[i], Flatten(ps[i + 1..]));
      done := done + ps[i];
    }
    PhasesDone(ps);
    assert done + [] == done;
    Finish(host, before, done);
    ok := true;
  }

  /** The cleanup loop: unmount /mnt/dev, /mnt/proc, /mnt/sys and /mnt/run, in that order. */
  method UnmountBinds(host: Host) returns (ok: bool)
    modifies host
    ensures host.Ran(old(host.log), Flatten(UnbindSteps()), ok)
  {
    ghost var before := host.log;
    ghost var ps := UnbindSteps();
    ghost var done: seq<Action> := [];
    Start(host, Flatten(ps));
    PhasesFrom0(ps);
    for i := 0 to |BindDirs|
      invariant host.log == before + done && Succeeded(host.succeeds, |before|, |done|)
      invariant Flatten(ps) == done + Flatten(ps[i..])
    {
      FlattenFrom(ps, i);
      ok := host.Perform([Command("umount", [Target + BindDirs[i]], false)]);
      if !ok { Fail(host, before, done, ps[i], Flatten(ps[i + 1..])); return; }
      Extend(host, before, done, ps[i]);
      Assoc(done, ps[i], Flatten(ps[i + 1..]));
      done := done + ps[i];
    }
    PhasesDone(ps);
    assert done + [] == done;
    Finish(host, before, done);
    ok := true;
  }

  /**
   * perform_installation for a configuration whose three choices are made:
   * every statement in order, each ending the installation when it fails.
   */
  method PerformInstallation(host: Host, s: State) returns (ok: bool)
    requires Complete(s)
    modifies host
    ensures host.Ran(old(host.log), Plan(s), ok)
  {
    var branch, filesystem, edition := s.branch.value, s.filesystem.value, s.edition.value;
    ghost var before := host.log;
    ghost var p0, p1, p2, p3, p4 := SourcesPhase(branch), PartitionPhase(s), FormatPhase(filesystem), MountPhase(), BootstrapPhase(branch);
    ghost var p5, p6, p7, p8, p9 := Flatten(BindSteps()), UserSetupPhase(s), HostnamePhase(s), EditionPhase(edition, s), GrubPhase();
    ghost var p10, p11, p12, p13 := Flatten(UnbindSteps()), UnmountTargetPhase(), SelfUninstallPhase(), RebootPhase();
    PlanRight(s);
    ghost var t12 := p12 + p13;
    ghost var t11 := p11 + t12;
    ghost var t10 := p10 + t11;
    ghost var t9 := p9 + t10;
    ghost var t8 := p8 + t9;
    ghost var t7 := p7 + t8;
    ghost var t6 := p6 + t7;
    ghost var t5 := p5 + t6;
    ghost var t4 := p4 + t5;
    ghost var t3 := p3 + t4;
    ghost var t2 := p2 + t3;
    ghost var t1 := p1 + t2;
    Start(host, Plan(s));
    ghost var done: seq<Action> := [];

    ok := host.Perform([WriteFile(SourcesListPath, SourcesLine(branch)), Command("apt", ["update"], false)]);
    if !ok { Fail(host, before, done, p0, t1); return; }
    Extend(host, before, done, p0); Assoc(done, p0, t1); done := done + p0;

    if s.manualPartition {
      ok := host.Perform([Command("cfdisk", [s.disk], false)]);
    } else {
      ok := host.Perform([Command("sfdisk", [s.disk], true)]);
    }
    if !ok { Fail(host, before, done, p1, t2); return; }
    Extend(host, before, done, p1); Assoc(done, p1, t2); done := done + p1;

    ok := host.Perform([Command(FormatterOf(filesystem), [RootPartition], false)]);
    if !ok { Fail(host, before, done, p2, t3); return; }
    Extend(host, before, done, p2); Assoc(done, p2, t3); done := done + p2;

    ok := host.Perform([Mkdir(Target), Command("mount", [RootPartition, Target], false),
                        Mkdir(TargetBoot), Command("mount", [BootPartition, TargetBoot], false)]);
    if !ok { Fail(host, before, done, p3, t4); return; }
    Extend(host, before, done, p3); Assoc(done, p3, t4); done := done + p3;

    ok := host.Perform([Command("debootstrap", [Codename(branch), Target], false)]);
    if !ok { Fail(host, before, done, p4, t5); return; }
    Extend(host, before, done, p4); Assoc(done, p4, t5); done := done + p4;

    ok := BindMounts(host);
    if !ok { Fail(host, before, done, p5, t6); return; }
    Extend(host, before, done, p5); Assoc(done, p5, t6); done := done + p5;

    ok := host.Perform([Chroot("apt update"),
                        Chroot("apt install -y linux-image-amd64 grub-efi-amd64"),
                        Chroot("useradd -m -G sudo " + s.username),
                        Chroot("echo '" + s.username + ":" + s.password + "' | chpasswd"),
                        Chroot("echo '" + s.username + " ALL=(ALL) ALL' >> /etc/sudoers")]);
    if !ok { Fail(host, before, done, p6, t7); return; }
    Extend(host, before, done, p6); Assoc(done, p6, t7); done := done + p6;

    ok := host.Perform([WriteFile(HostnamePath, s.hostname)]);
    if !ok { Fail(host, before, done, p7, t8); return; }
    Extend(host, before, done, p7); Assoc(done, p7, t8); done := done + p7;

    ok := InstallEdition(host, edition, s);
    if !ok { Fail(host, before, done, p8, t9); return; }
    Extend(host, before, done, p8); Assoc(done, p8, t9); done := done + p8;

    ok := host.Perform([Chroot("grub-install /dev/sda"), Chroot("update-grub")]);
    if !ok { Fail(host, before, done, p9, t10); return; }
    Extend(host, before, done, p9); Assoc(done, p9, t10); done := done + p9;

    ok := UnmountBinds(host);
    if !ok { Fail(host, before, done, p10, t11); return; }
    Extend(host, before, done, p10); Assoc(done, p10, t11); done := done + p10;

    ok := host.Perform([Command("umount", [TargetBoot], false), Command("umount", [Target], false)]);
    if !ok { Fail(host, before, done, p11, t12); return; }
    Extend(host, before, done, p11); Assoc(done, p11, t12); done := done + p11;

    ok := host.Perform([RemoveDirAll(InstallerAssets), RemoveFile(InstallerBinary), RemoveFile(InstallerProfile)]);
    if !ok { Fail(host, before, done, p12, p13); return; }
    Extend(host, before, done, p12); Assoc(done, p12, p13); done := done + p12;

    ok := host.Perform([Command("reboot", [], false)]);
    if !ok { FailLast(host, before, done, p13); return; }
    Extend(host, before, done, p13); done := done + p13;
    Finish(host, before, done);
  }
}
