/**
 * perform_installation and install_edition as data: the ordered list of
 * actions they issue for a configuration, grouped in the phases of the
 * source, and the ordering facts the installation relies on.
 */
module Pipeline {
  import opened Common
  import opened Tables
  import opened Wizard
  import opened Actions

  const SourcesListPath: string := "/etc/apt/sources.list"
  const RootPartition: string := "/dev/sda2"
  const BootPartition: string := "/dev/sda1"
  const Target: string := "/mnt"
  const TargetBoot: string := "/mnt/boot"
  const HostnamePath: string := "/mnt/etc/hostname"

  /** The host directories bind-mounted into the target, in the order of both loops. */
  const BindDirs: seq<string> := ["/dev", "/proc", "/sys", "/run"]

  const InstallerAssets: string := "/usr/share/HackerOS-Installer"
  const InstallerBinary: string := "/usr/bin/HackerOS-Installer"
  const InstallerProfile: string := "/etc/profile.d/HackerOS-Installer.sh"

  /** The `chroot_cmd` closure: run a shell command line inside the target root. */
  function Chroot(cmd: string): Action
  {
    Command("chroot", [Target, "/bin/bash", "-c", cmd], false)
  }

  function AptInstall(packages: string): Action
  {
    Chroot("apt install -y " + packages)
  }

  predicate IsChroot(a: Action)
  {
    a.Command? && a.program == "chroot"
  }

  predicate IsBindMount(a: Action)
  {
    a.Command? && a.program == "mount" && |a.args| > 0 && a.args[0] == "--bind"
  }

  predicate IsReboot(a: Action)
  {
    a.Command? && a.program == "reboot"
  }

  // ---------------------------------------------------------------------------
  // The phases of perform_installation
  // ---------------------------------------------------------------------------

  function SourcesPhase(b: DebianBranch): seq<Action>
  {
    [WriteFile(SourcesListPath, SourcesLine(b)), Command("apt", ["update"], false)]
  }

  /** cfdisk for manual partitioning; otherwise sfdisk with a piped, empty stdin. */
  function PartitionPhase(s: State): seq<Action>
  {
    if s.manualPartition then [Command("cfdisk", [s.disk], false)] else [Command("sfdisk", [s.disk], true)]
  }

  function FormatPhase(f: Filesystem): seq<Action>
  {
    [Command(FormatterOf(f), [RootPartition], false)]
  }

  function MountPhase(): seq<Action>
  {
    [Mkdir(Target), Command("mount", [RootPartition, Target], false),
     Mkdir(TargetBoot), Command("mount", [BootPartition, TargetBoot], false)]
  }

  function BootstrapPhase(b: DebianBranch): seq<Action>
  {
    [Command("debootstrap", [Codename(b), Target], false)]
  }

  function BindMount(dir: string): seq<Action>
  {
    [Mkdir(Target + dir), Command("mount", ["--bind", dir, Target + dir], false)]
  }

  function BindSteps(): seq<seq<Action>>
  {
    seq(|BindDirs|, i requires 0 <= i < |BindDirs| => BindMount(BindDirs[i]))
  }

  function UserSetupPhase(s: State): seq<Action>
  {
    [Chroot("apt update"),
     Chroot("apt install -y linux-image-amd64 grub-efi-amd64"),
     Chroot("useradd -m -G sudo " + s.username),
     Chroot("echo '" + s.username + ":" + s.password + "' | chpasswd"),
     Chroot("echo '" + s.username + " ALL=(ALL) ALL' >> /etc/sudoers")]
  }

  function HostnamePhase(s: State): seq<Action>
  {
    [WriteFile(HostnamePath, s.hostname)]
  }

  function GrubPhase(): seq<Action>
  {
    [Chroot("grub-install /dev/sda"), Chroot("update-grub")]
  }

  function Unmount(dir: string): seq<Action>
  {
    [Command("umount", [Target + dir], false)]
  }

  function UnbindSteps(): seq<seq<Action>>
  {
    seq(|BindDirs|, i requires 0 <= i < |BindDirs| => Unmount(BindDirs[i]))
  }

  function UnmountTargetPhase(): seq<Action>
  {
    [Command("umount", [TargetBoot], false), Command("umount", [Target], false)]
  }

  function SelfUninstallPhase(): seq<Action>
  {
    [RemoveDirAll(InstallerAssets), RemoveFile(InstallerBinary), RemoveFile(InstallerProfile)]
  }

  function RebootPhase(): seq<Action>
  {
    [Command("reboot", [], false)]
  }

  // ---------------------------------------------------------------------------
  // install_edition
  // ---------------------------------------------------------------------------

  const OverlaySource: string := "/usr/share/HackerOS-Installer/official/"
  const OverlayTarget: string := "/mnt/"

  /** download_file: fetch the URL into `path`, then `chmod +x` it unless NeedsChmod says no. */
  function Download(url: string, path: string): seq<Action>
  {
    [Fetch(url, path)] + (if NeedsChmod(path) then [Command("chmod", ["+x", path], false)] else [])
  }

  /** The Blue Environment component names and their release URLs. */
  const BlueComponents: seq<(string, string)> := [
    ("wm", "https://github.com/HackerOS-Linux-System/Blue-Environment/releases/download/v0.1/wm"),
    ("shell", "https://github.com/HackerOS-Linux-System/Blue-Environment/releases/download/v0.1/shell"),
    ("launcher", "https://github.com/HackerOS-Linux-System/Blue-Environment/releases/download/v0.1/launcher"),
    ("Desktop", "https://github.com/HackerOS-Linux-System/Blue-Environment/releases/download/v0.1/Desktop"),
    ("decorations", "https://github.com/HackerOS-Linux-System/Blue-Environment/releases/download/v0.1/decorations"),
    ("core", "https://github.com/HackerOS-Linux-System/Blue-Environment/releases/download/v0.1/core")]

  const BlueSessionUrl: string :=
    "https://github.com/HackerOS-Linux-System/Blue-Environment/releases/download/v0.1/Blue-Environment"
  const BlueSessionPath: string := "/mnt/usr/bin/Blue-Environment"
  const BlueDesktopUrl: string :=
    "https://raw.githubusercontent.com/HackerOS-Linux-System/Blue-Environment/main/Blue-Environment.desktop"
  const BlueDesktopPath: string := "/mnt/usr/share/wayland-sessions/Blue-Environment.desktop"

  /** The per-user directory of the Blue Environment binaries (it ends with '/'). */
  function BlueHome(username: string): string
  {
    "/mnt/home/" + username + "/.hackeros/Blue-Environment/"
  }

  /** `format!("{}/{}", home, name)`: a second '/' follows the one home ends with. */
  function BlueComponentPath(username: string, name: string): string
  {
    BlueHome(username) + "/" + name
  }

  function BlueDownloadSteps(username: string): seq<seq<Action>>
  {
    seq(|BlueComponents|, i requires 0 <= i < |BlueComponents| =>
      Download(BlueComponents[i].1, BlueComponentPath(username, BlueComponents[i].0)))
  }

  const HydraRepo: string := "https://github.com/HackerOS-Linux-System/hydra-look-and-feel.git"
  const HydraClone: string := "/tmp/hydra-look-and-feel"
  const HydraFiles: string := "/tmp/hydra-look-and-feel/files/"

  const HammerRelease: string := "https://github.com/HackerOS-Linux-System/hammer/releases/download/v0.5"
  const HammerUrl: string := "https://github.com/HackerOS-Linux-System/hammer/releases/download/v0.5/hammer"
  const HammerPath: string := "/mnt/usr/bin/hammer"
  const HammerLib: string := "/mnt/usr/lib/HackerOS/hammer/"
  /** The four helper programs; each is released as HammerRelease + "/" + its name. */
  const HammerNames: seq<string> := ["hammer-updater", "hammer-tui", "hammer-core", "hammer-builder"]
  const HammerComponents: seq<string> :=
    seq(|HammerNames|, i requires 0 <= i < |HammerNames| => HammerRelease + "/" + HammerNames[i])

  /** Each helper is stored in HammerLib under its name, the last segment of its URL (HammerNamesAreLastSegments). */
  function HammerDownloadSteps(): seq<seq<Action>>
  {
    seq(|HammerNames|, i requires 0 <= i < |HammerNames| =>
      Download(HammerComponents[i], HammerLib + HammerNames[i]))
  }

  function BlueSteps(username: string): seq<seq<Action>>
  {
    [[Mkdir(BlueHome(username))],
     Flatten(BlueDownloadSteps(username)),
     Download(BlueSessionUrl, BlueSessionPath),
     Download(BlueDesktopUrl, BlueDesktopPath),
     [AptInstall(BluePackages)]]
  }

  function HydraSteps(): seq<seq<Action>>
  {
    [[Clone(HydraRepo, HydraClone)], [CopyDir(HydraFiles, OverlayTarget)]]
  }

  function AtomicSteps(): seq<seq<Action>>
  {
    [Download(HammerUrl, HammerPath),
     [Mkdir(HammerLib)],
     Flatten(HammerDownloadSteps()),
     [AptInstall(PlasmaPackages)],
     [Chroot("hammer setup")]]
  }

  /** The steps of the edition's own arm of install_edition. */
  function OwnSteps(e: Edition, s: State): seq<seq<Action>>
  {
    match e
    case Blue => BlueSteps(s.username)
    case Hydra => HydraSteps()
    case Atomic => AtomicSteps()
    case _ => [[AptInstall(DesktopPackages(e).value)]]
  }

  /** install_edition: the common overlay copy, then the edition's own steps. */
  function EditionPhase(e: Edition, s: State): seq<Action>
  {
    [CopyDir(OverlaySource, OverlayTarget)] + Flatten(OwnSteps(e, s))
  }

  /**
   * The phases of perform_installation for a configuration whose three
   * choices are made, with the actions of install_edition in `edition`.
   */
  function Phases(s: State, edition: seq<Action>): seq<seq<Action>>
    requires Complete(s)
  {
    [SourcesPhase(s.branch.value),
     PartitionPhase(s),
     FormatPhase(s.filesystem.value),
     MountPhase(),
     BootstrapPhase(s.branch.value),
     Flatten(BindSteps()),
     UserSetupPhase(s),
     HostnamePhase(s),
     edition,
     GrubPhase(),
     Flatten(UnbindSteps()),
     UnmountTargetPhase(),
     SelfUninstallPhase(),
     RebootPhase()]
  }

  /** Everything perform_installation attempts, in order, when every step succeeds. */
  function Plan(s: State): seq<Action>
    requires Complete(s)
  {
    Flatten(Phases(s, EditionPhase(s.edition.value, s)))
  }

  // ---------------------------------------------------------------------------
  // Shape of the plan
  // ---------------------------------------------------------------------------

  /** Both loops visit /dev, /proc, /sys and /run in this order. */
  lemma BindStepsInOrder()
    ensures Flatten(BindSteps()) ==
      BindMount("/dev") + BindMount("/proc") + BindMount("/sys") + BindMount("/run")
    ensures Flatten(UnbindSteps()) ==
      Unmount("/dev") + Unmount("/proc") + Unmount("/sys") + Unmount("/run")
  {
    var bs, us := BindSteps(), UnbindSteps();
    PhasesFrom0(bs); FlattenFrom(bs, 0); FlattenFrom(bs, 1); FlattenFrom(bs, 2); FlattenFrom(bs, 3); PhasesDone(bs);
    PhasesFrom0(us); FlattenFrom(us, 0); FlattenFrom(us, 1); FlattenFrom(us, 2); FlattenFrom(us, 3); PhasesDone(us);
  }

  /** The preparation on the host: sources, partitioning, formatting, mounting, debootstrap. */
  function HostSetup(s: State): seq<Action>
    requires Complete(s)
  {
    SourcesPhase(s.branch.value) + PartitionPhase(s) + FormatPhase(s.filesystem.value) + MountPhase()
    + BootstrapPhase(s.branch.value)
  }

  /** The work inside the target: from the first chroot to update-grub. */
  function InTarget(s: State, edition: seq<Action>): seq<Action>
  {
    UserSetupPhase(s) + HostnamePhase(s) + edition + GrubPhase()
  }

  /** Unmounting, removing the installer and rebooting. */
  function Teardown(): seq<Action>
  {
    Flatten(UnbindSteps()) + UnmountTargetPhase() + SelfUninstallPhase() + RebootPhase()
  }

  lemma {:induction false} FlattenFive(ps: seq<seq<Action>>)
    requires |ps| == 5
    ensures Flatten(ps) == ps[0] + ps[1] + ps[2] + ps[3] + ps[4]
  {
    PhasesFrom0(ps);
    FlattenFrom(ps, 0); FlattenFrom(ps, 1); FlattenFrom(ps, 2); FlattenFrom(ps, 3); FlattenFrom(ps, 4);
    PhasesDone(ps);
  }

  lemma {:induction false} FlattenFour(ps: seq<seq<Action>>)
    requires |ps| == 4
    ensures Flatten(ps) == ps[0] + ps[1] + ps[2] + ps[3]
  {
    PhasesFrom0(ps);
    FlattenFrom(ps, 0); FlattenFrom(ps, 1); FlattenFrom(ps, 2); FlattenFrom(ps, 3);
    PhasesDone(ps);
  }

  /** Fourteen phases in four parts: five, one, four and four. */
  lemma {:induction false} FlattenFourteen(ps: seq<seq<Action>>)
    requires |ps| == 14
    ensures Flatten(ps) == Flatten(ps[..5]) + ps[5] + Flatten(ps[6..10]) + Flatten(ps[10..])
  {
    var front := ps[..10];
    FlattenSplit(ps, 10);
    FlattenSplit(front, 5);
    FlattenFrom(front, 5);
    assert front[..5] == ps[..5];
    assert front[6..] == ps[6..10];
  }

  /** The installation is the host setup, the bind mounts, the work in the target and the teardown. */
  lemma PhasesInParts(s: State, edition: seq<Action>)
    requires Complete(s)
    ensures Flatten(Phases(s, edition)) == HostSetup(s) + Flatten(BindSteps()) + InTarget(s, edition) + Teardown()
  {
    var ps := Phases(s, edition);
    FlattenFourteen(ps);
    FlattenFive(ps[..5]);
    FlattenFour(ps[6..10]);
    FlattenFour(ps[10..]);
  }

  // ---------------------------------------------------------------------------
  // What each part may contain
  // ---------------------------------------------------------------------------

  predicate IsUnmount(a: Action)
  {
    a.Command? && a.program == "umount"
  }

  predicate IsRemoval(a: Action)
  {
    a.RemoveDirAll? || a.RemoveFile?
  }

  /** Runs on the host without touching the installer itself or the machine's power state. */
  predicate Preparation(a: Action)
  {
    !IsChroot(a) && !IsBindMount(a) && !IsUnmount(a) && !IsRemoval(a) && !IsReboot(a)
  }

  /** May run inside the target, but never mounts, unmounts, removes or reboots. */
  predicate TargetWork(a: Action)
  {
    !IsBindMount(a) && !IsUnmount(a) && !IsRemoval(a) && !IsReboot(a)
  }

  /** The kinds of action install_edition issues. */
  predicate EditionAction(a: Action)
  {
    a.CopyDir? || a.Mkdir? || a.Fetch? || a.Clone? || (a.Command? && (a.program == "chroot" || a.program == "chmod"))
  }

  /** A download always fetches first; the chmod follows exactly when the path ends neither in '/' nor in ".desktop". */
  lemma DownloadChmodIff(url: string, path: string)
    ensures |Download(url, path)| >= 1 && Download(url, path)[0] == Fetch(url, path)
    ensures Command("chmod", ["+x", path], false) in Download(url, path) <==>
      !EndsWith(path, "/") && !EndsWith(path, ".desktop")
    ensures |Download(url, path)| == if NeedsChmod(path) then 2 else 1
  {
  }

  /** The actions of download_file. */
  predicate DownloadWork(a: Action)
  {
    a.Fetch? || (a.Command? && a.program == "chmod")
  }

  /** A download is the fetch into `path`, possibly followed by `chmod +x` of that same path. */
  lemma DownloadActions(url: string, path: string)
    ensures forall a :: a in Download(url, path) ==> a == Fetch(url, path) || a == Command("chmod", ["+x", path], false)
    ensures AllOf(Download(url, path), DownloadWork) && AllOf(Download(url, path), EditionAction)
  {
  }

  /** The Blue component loop only fetches and marks executable. */
  lemma BlueDownloadActions(username: string)
    ensures AllOf(Flatten(BlueDownloadSteps(username)), DownloadWork)
    ensures AllOf(Flatten(BlueDownloadSteps(username)), EditionAction)
  {
    var ds := BlueDownloadSteps(username);
    forall j | 0 <= j < |ds|
      ensures AllOf(ds[j], DownloadWork) && AllOf(ds[j], EditionAction)
    {
      DownloadActions(BlueComponents[j].1, BlueComponentPath(username, BlueComponents[j].0));
    }
    FlattenAll(ds, DownloadWork);
    FlattenAll(ds, EditionAction);
  }

  /** The hammer helper loop only fetches and marks executable. */
  lemma HammerDownloadActions()
    ensures AllOf(Flatten(HammerDownloadSteps()), DownloadWork)
    ensures AllOf(Flatten(HammerDownloadSteps()), EditionAction)
  {
    var ds := HammerDownloadSteps();
    forall j | 0 <= j < |ds|
      ensures AllOf(ds[j], DownloadWork) && AllOf(ds[j], EditionAction)
    {
      DownloadActions(HammerComponents[j], HammerLib + HammerNames[j]);
    }
    FlattenAll(ds, DownloadWork);
    FlattenAll(ds, EditionAction);
  }

  lemma AllOfFive(a: seq<Action>, b: seq<Action>, c: seq<Action>, d: seq<Action>, e: seq<Action>, f: Action -> bool)
    requires AllOf(a, f) && AllOf(b, f) && AllOf(c, f) && AllOf(d, f) && AllOf(e, f)
    ensures AllOf(Flatten([a, b, c, d, e]), f)
  {
    FlattenAll([a, b, c, d, e], f);
  }

  lemma BlueStepsActions(username: string)
    ensures AllOf(Flatten(BlueSteps(username)), EditionAction)
  {
    BlueDownloadActions(username);
    DownloadActions(BlueSessionUrl, BlueSessionPath);
    DownloadActions(BlueDesktopUrl, BlueDesktopPath);
    AllOfFive([Mkdir(BlueHome(username))], Flatten(BlueDownloadSteps(username)), Download(BlueSessionUrl, BlueSessionPath),
      Download(BlueDesktopUrl, BlueDesktopPath), [AptInstall(BluePackages)], EditionAction);
  }

  lemma AtomicStepsActions()
    ensures AllOf(Flatten(AtomicSteps()), EditionAction)
  {
    HammerDownloadActions();
    DownloadActions(HammerUrl, HammerPath);
    AllOfFive(Download(HammerUrl, HammerPath), [Mkdir(HammerLib)], Flatten(HammerDownloadSteps()),
      [AptInstall(PlasmaPackages)], [Chroot("hammer setup")], EditionAction);
  }

  lemma OwnStepsActions(e: Edition, s: State)
    ensures AllOf(Flatten(OwnSteps(e, s)), EditionAction)
  {
    match e
    case Blue => BlueStepsActions(s.username);
    case Atomic => AtomicStepsActions();
    case _ => FlattenAll(OwnSteps(e, s), EditionAction);
  }

  /** install_edition only copies, creates directories, downloads, clones and runs chroot or chmod. */
  lemma EditionActions(e: Edition, s: State)
    ensures AllOf(EditionPhase(e, s), EditionAction)
  {
    OwnStepsActions(e, s);
  }

  // ---------------------------------------------------------------------------
  // Ordering of the plan
  // ---------------------------------------------------------------------------

  predicate BindWork(a: Action)
  {
    !IsChroot(a) && !IsUnmount(a) && !IsRemoval(a) && !IsReboot(a)
  }

  predicate TeardownWork(a: Action)
  {
    !IsChroot(a) && !IsBindMount(a)
  }

  /** Where each kind of action can sit in a plan assembled from four parts. */
  lemma PartsOrder(h: seq<Action>, b: seq<Action>, c: seq<Action>, t: seq<Action>)
    requires AllOf(h, Preparation) && AllOf(b, BindWork) && AllOf(c, TargetWork) && AllOf(t, TeardownWork)
    requires c != []
    ensures var p := h + b + c + t;
      p[..|h|] == h && p[|h|..|h| + |b|] == b && p[|h| + |b|] == c[0] && p[|p| - |t|..] == t
    ensures var p := h + b + c + t;
      forall i :: 0 <= i < |p| && IsChroot(p[i]) ==> |h| + |b| <= i < |p| - |t|
    ensures var p := h + b + c + t;
      forall i :: |h| + |b| <= i < |p| ==> !IsBindMount(p[i])
    ensures var p := h + b + c + t;
      forall i :: 0 <= i < |p| - |t| ==> !IsUnmount(p[i]) && !IsRemoval(p[i]) && !IsReboot(p[i])
  {
    var p := h + b + c + t;
    forall i | 0 <= i < |p|
      ensures IsChroot(p[i]) ==> |h| + |b| <= i < |p| - |t|
      ensures |h| + |b| <= i ==> !IsBindMount(p[i])
      ensures i < |p| - |t| ==> !IsUnmount(p[i]) && !IsRemoval(p[i]) && !IsReboot(p[i])
    {
      if i < |h| {
        assert p[i] == h[i] && h[i] in h;
      } else if i < |h| + |b| {
        assert p[i] == b[i - |h|] && b[i - |h|] in b;
      } else if i < |h| + |b| + |c| {
        assert p[i] == c[i - |h| - |b|] && c[i - |h| - |b|] in c;
      } else {
        assert p[i] == t[i - |h| - |b| - |c|] && t[i - |h| - |b| - |c|] in t;
      }
    }
    assert p[..|h|] == h;
    assert p[|h|..|h| + |b|] == b;
    assert p[|p| - |t|..] == t;
  }

  lemma HostSetupKinds(s: State)
    requires Complete(s)
    ensures AllOf(HostSetup(s), Preparation) && |HostSetup(s)| == 9
  {
  }

  lemma BindKinds()
    ensures AllOf(Flatten(BindSteps()), BindWork) && |Flatten(BindSteps())| == 8
  {
    BindStepsInOrder();
  }

  lemma TeardownKinds()
    ensures AllOf(Teardown(), TeardownWork) && |Teardown()| == 10
  {
    BindStepsInOrder();
  }

  /**
   * The work inside the target never mounts, unmounts, removes or reboots; it
   * starts with `apt update`, and besides install_edition's actions it only
   * runs chroot commands and writes the hostname.
   */
  lemma InTargetKinds(s: State, edition: seq<Action>)
    requires AllOf(edition, EditionAction)
    ensures AllOf(InTarget(s, edition), TargetWork) && InTarget(s, edition)[0] == Chroot("apt update")
    ensures forall a :: a in InTarget(s, edition) ==>
      IsChroot(a) || a == WriteFile(HostnamePath, s.hostname) || a in edition
  {
    assert AllOf(UserSetupPhase(s) + HostnamePhase(s), TargetWork);
    assert AllOf(GrubPhase(), TargetWork);
    forall a | a in InTarget(s, edition)
      ensures TargetWork(a)
    {
      if a in edition {
        assert EditionAction(a);
      }
    }
  }

  /**
   * The plan runs the host setup, then the four bind mounts, then everything
   * inside the target starting with `apt update`, then the teardown. Every
   * chroot runs while the bind mounts are in place; nothing is bind-mounted
   * after the first chroot; nothing is unmounted, removed or rebooted before
   * the teardown.
   */
  lemma PlanOrder(s: State)
    requires Complete(s)
    ensures var p := Plan(s);
      |p| >= 35 && p[..9] == HostSetup(s) && p[9..17] == Flatten(BindSteps())
      && p[17] == Chroot("apt update") && p[|p| - 10..] == Teardown()
    ensures var p := Plan(s);
      forall i :: 0 <= i < |p| && IsChroot(p[i]) ==> 17 <= i < |p| - 10
    ensures var p := Plan(s);
      forall i :: 17 <= i < |p| ==> !IsBindMount(p[i])
    ensures var p := Plan(s);
      forall i :: 0 <= i < |p| - 10 ==> !IsUnmount(p[i]) && !IsRemoval(p[i]) && !IsReboot(p[i])
  {
    var edition := EditionPhase(s.edition.value, s);
    EditionActions(s.edition.value, s);
    var h, b, c, t := HostSetup(s), Flatten(BindSteps()), InTarget(s, edition), Teardown();
    PhasesInParts(s, edition);
    HostSetupKinds(s);
    BindKinds();
    InTargetKinds(s, edition);
    TeardownKinds();
    assert |c| >= 8;
    PartsOrder(h, b, c, t);
  }

  lemma TeardownInOrder()
    ensures Teardown() ==
      [Command("umount", [Target + "/dev"], false), Command("umount", [Target + "/proc"], false),
       Command("umount", [Target + "/sys"], false), Command("umount", [Target + "/run"], false),
       Command("umount", [TargetBoot], false), Command("umount", [Target], false),
       RemoveDirAll(InstallerAssets), RemoveFile(InstallerBinary), RemoveFile(InstallerProfile),
       Command("reboot", [], false)]
  {
    BindStepsInOrder();
  }

  /** A plan that ends with the teardown, and removes and reboots nothing before it, removes and reboots once. */
  lemma EndsWithTeardown(p: seq<Action>)
    requires |p| >= 10 && p[|p| - 10..] == Teardown()
    requires forall i :: 0 <= i < |p| - 10 ==> !IsRemoval(p[i]) && !IsReboot(p[i])
    ensures p[|p| - 4] == RemoveDirAll(InstallerAssets) && p[|p| - 1] == Command("reboot", [], false)
    ensures RemoveDirAll(InstallerAssets) !in p[..|p| - 4] && Command("reboot", [], false) !in p[..|p| - 1]
  {
    var t := p[|p| - 10..];
    TeardownInOrder();
    assert t[6] == p[|p| - 4];
    assert t[9] == p[|p| - 1];
    forall i | 0 <= i < |p| - 1
      ensures !IsReboot(p[i]) && (i < |p| - 4 ==> !IsRemoval(p[i]))
    {
      if i >= |p| - 10 {
        assert p[i] == t[i - (|p| - 10)];
      }
    }
  }

  /** The installer's own removal and the reboot each occur once, near the end of the plan. */
  lemma CleanupPositions(s: State)
    requires Complete(s)
    ensures var p := Plan(s);
      |p| >= 10 && p[|p| - 4] == RemoveDirAll(InstallerAssets) && p[|p| - 1] == Command("reboot", [], false)
    ensures var p := Plan(s);
      RemoveDirAll(InstallerAssets) !in p[..|p| - 4] && Command("reboot", [], false) !in p[..|p| - 1]
  {
    PlanOrder(s);
    EndsWithTeardown(Plan(s));
  }

  /** The installer removes itself only once every earlier action succeeded. */
  lemma UninstallOnlyAfterSuccess(s: State, succeeds: nat -> bool, at: nat)
    requires Complete(s)
    ensures var p := Plan(s);
      RemoveDirAll(InstallerAssets) in Exec(p, succeeds, at).attempted ==>
        |p| >= 4 && forall n :: at <= n < at + |p| - 4 ==> succeeds(n)
  {
    CleanupPositions(s);
    OnlyAfterSuccess(Plan(s), succeeds, at, |Plan(s)| - 4);
  }

  /** The machine reboots only once every other action succeeded. */
  lemma RebootOnlyAfterSuccess(s: State, succeeds: nat -> bool, at: nat)
    requires Complete(s)
    ensures var p := Plan(s);
      Command("reboot", [], false) in Exec(p, succeeds, at).attempted ==>
        |p| >= 1 && forall n :: at <= n < at + |p| - 1 ==> succeeds(n)
  {
    CleanupPositions(s);
    OnlyAfterSuccess(Plan(s), succeeds, at, |Plan(s)| - 1);
  }

  // ---------------------------------------------------------------------------
  // install_edition and download_file
  // ---------------------------------------------------------------------------

  /** The plain editions copy the overlay and install their package set, nothing else. */
  lemma PackageEditions(e: Edition, s: State)
    requires e in {Official, Gnome, Xfce, Cybersecurity, Wayfire}
    ensures DesktopPackages(e).Some?
    ensures EditionPhase(e, s) == [CopyDir(OverlaySource, OverlayTarget), AptInstall(DesktopPackages(e).value)]
  {
    PhasesFrom0(OwnSteps(e, s));
    FlattenFrom(OwnSteps(e, s), 0);
    PhasesDone(OwnSteps(e, s));
  }

  /** Hydra copies the overlay, clones its look-and-feel and copies its files; it runs nothing in the target. */
  lemma HydraEdition(s: State)
    ensures EditionPhase(Hydra, s) ==
      [CopyDir(OverlaySource, OverlayTarget), Clone(HydraRepo, HydraClone), CopyDir(HydraFiles, OverlayTarget)]
    ensures forall a :: a in EditionPhase(Hydra, s) ==> !IsChroot(a)
  {
    assert HydraSteps() == [[Clone(HydraRepo, HydraClone)], [CopyDir(HydraFiles, OverlayTarget)]];
    PhasesFrom0(HydraSteps());
    FlattenFrom(HydraSteps(), 0);
    FlattenFrom(HydraSteps(), 1);
    PhasesDone(HydraSteps());
  }

  /**
   * An edition with a package set installs exactly that set in the target;
   * the edition without one (Hydra) runs no chroot command at all.
   */
  lemma EditionInstallsPackages(e: Edition, s: State)
    ensures DesktopPackages(e).Some? ==> AptInstall(DesktopPackages(e).value) in EditionPhase(e, s)
    ensures DesktopPackages(e).None? ==> forall a :: a in EditionPhase(e, s) ==> !IsChroot(a)
  {
    match e
    case Blue =>
      FlattenMember(BlueSteps(s.username), AptInstall(BluePackages));
      assert AptInstall(BluePackages) in BlueSteps(s.username)[4];
    case Atomic =>
      FlattenMember(AtomicSteps(), AptInstall(PlasmaPackages));
      assert AptInstall(PlasmaPackages) in AtomicSteps()[3];
    case Hydra =>
      HydraEdition(s);
    case _ =>
      PackageEditions(e, s);
  }

  /** Every Blue Environment component is marked executable after its download. */
  lemma BlueComponentDownloads(username: string)
    ensures forall j :: 0 <= j < |BlueComponents| ==>
      var path := BlueComponentPath(username, BlueComponents[j].0);
      BlueDownloadSteps(username)[j] == [Fetch(BlueComponents[j].1, path), Command("chmod", ["+x", path], false)]
  {
    forall j | 0 <= j < |BlueComponents|
      ensures NeedsChmod(BlueComponentPath(username, BlueComponents[j].0))
    {
      BlueComponentChmod(username, BlueComponents[j].0);
    }
  }

  lemma BlueComponentChmod(username: string, name: string)
    requires name != [] && '/' !in name && '.' !in name
    ensures NeedsChmod(BlueComponentPath(username, name))
  {
    ChmodForPlainNames(BlueHome(username) + "/", name);
  }

  /** The session binary is marked executable; the session's .desktop file is not. */
  lemma BlueSessionDownloads()
    ensures Download(BlueSessionUrl, BlueSessionPath) ==
      [Fetch(BlueSessionUrl, BlueSessionPath), Command("chmod", ["+x", BlueSessionPath], false)]
    ensures Download(BlueDesktopUrl, BlueDesktopPath) == [Fetch(BlueDesktopUrl, BlueDesktopPath)]
  {
  }

  /** `format!("{}/{}", home, name)` with a home that already ends in '/' doubles the slash. */
  lemma BlueDoubleSlash(username: string, name: string)
    ensures BlueComponentPath(username, name) ==
      "/mnt/home/" + username + "/.hackeros/Blue-Environment//" + name
  {
  }

  /** `url.split('/').last()` of each helper's URL is the helper's name. */
  lemma HammerNamesAreLastSegments()
    ensures |HammerComponents| == |HammerNames|
    ensures forall j :: 0 <= j < |HammerNames| ==> LastSegment(HammerComponents[j]) == HammerNames[j]
  {
    assert forall j :: 0 <= j < |HammerNames| ==> '/' !in HammerNames[j];
    LastSegmentsAfterSlash(HammerRelease, HammerNames, HammerComponents);
  }

  /** Each hammer helper lands in HammerLib under its own name and is marked executable. */
  lemma HammerDownloads()
    ensures |HammerDownloadSteps()| == |HammerNames|
    ensures forall j :: 0 <= j < |HammerNames| ==>
      var path := HammerLib + HammerNames[j];
      HammerDownloadSteps()[j] == [Fetch(HammerRelease + "/" + HammerNames[j], path), Command("chmod", ["+x", path], false)]
  {
    forall j | 0 <= j < |HammerNames|
      ensures NeedsChmod(HammerLib + HammerNames[j])
    {
      ChmodForPlainNames(HammerLib, HammerNames[j]);
    }
  }

  /**
   * The plan opens by writing sources.list for the chosen branch and running
   * apt update, then partitions, formats with the chosen tool and ends the
   * host setup with debootstrap of the branch's codename.
   */
  lemma HostSetupInOrder(s: State)
    requires Complete(s)
    ensures var p := Plan(s); var b := s.branch.value;
      |p| >= 9
      && p[0] == WriteFile(SourcesListPath, SourcesLine(b))
      && p[1] == Command("apt", ["update"], false)
      && p[2] == (if s.manualPartition then Command("cfdisk", [s.disk], false) else Command("sfdisk", [s.disk], true))
      && p[3] == Command(FormatterOf(s.filesystem.value), [RootPartition], false)
      && p[8] == Command("debootstrap", [Codename(b), Target], false)
  {
    PlanOrder(s);
    var p := Plan(s);
    assert p[..9][0] == p[0] && p[..9][1] == p[1] && p[..9][2] == p[2] && p[..9][3] == p[3] && p[..9][8] == p[8];
  }
}
