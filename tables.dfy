/**
 * The fixed lookup tables of the installer: the positional option lists of the
 * wizard's list stages, the Debian branch codenames and the sources.list line,
 * the per-filesystem formatter, the edition preview images and desktop
 * packages, the component-name extraction for the Atomic edition and the
 * `chmod +x` rule applied after a download.
 */
module Tables {
  import opened Common

  datatype Edition = Official | Gnome | Xfce | Blue | Hydra | Cybersecurity | Wayfire | Atomic

  datatype DebianBranch = Stable | Testing | Unstable

  datatype Filesystem = Btrfs | Ext4 | Zfs

  // ---------------------------------------------------------------------------
  // Positional tables of the list stages (the `match selected` arms of handle_enter)
  // ---------------------------------------------------------------------------

  /** Edition chosen by list index `i`; None for the `_ => return` arm. */
  function EditionAt(i: nat): (r: Option<Edition>)
    ensures r.Some? <==> i < 8
    ensures r.Some? ==> EditionIndex(r.value) == i
  {
    if i == 0 then Some(Official)
    else if i == 1 then Some(Gnome)
    else if i == 2 then Some(Xfce)
    else if i == 3 then Some(Blue)
    else if i == 4 then Some(Hydra)
    else if i == 5 then Some(Cybersecurity)
    else if i == 6 then Some(Wayfire)
    else if i == 7 then Some(Atomic)
    else None
  }

  /** Position of an edition in the edition list as it is drawn. */
  function EditionIndex(e: Edition): nat
  {
    match e
    case Official => 0
    case Gnome => 1
    case Xfce => 2
    case Blue => 3
    case Hydra => 4
    case Cybersecurity => 5
    case Wayfire => 6
    case Atomic => 7
  }

  function BranchAt(i: nat): (r: Option<DebianBranch>)
    ensures r.Some? <==> i < 3
    ensures r.Some? ==> BranchIndex(r.value) == i
  {
    if i == 0 then Some(Stable)
    else if i == 1 then Some(Testing)
    else if i == 2 then Some(Unstable)
    else None
  }

  function BranchIndex(b: DebianBranch): nat
  {
    match b
    case Stable => 0
    case Testing => 1
    case Unstable => 2
  }

  function FilesystemAt(i: nat): (r: Option<Filesystem>)
    ensures r.Some? <==> i < 3
    ensures r.Some? ==> FilesystemIndex(r.value) == i
  {
    if i == 0 then Some(Btrfs)
    else if i == 1 then Some(Ext4)
    else if i == 2 then Some(Zfs)
    else None
  }

  function FilesystemIndex(f: Filesystem): nat
  {
    match f
    case Btrfs => 0
    case Ext4 => 1
    case Zfs => 2
  }

  /** The edition table accepts exactly the indices 0..7 and is a bijection onto Edition. */
  lemma EditionTable(i: nat, e: Edition)
    ensures EditionAt(i).Some? <==> i < 8
    ensures EditionAt(EditionIndex(e)) == Some(e)
    ensures EditionAt(i) == Some(e) <==> i == EditionIndex(e)
  {
  }

  /** The branch table accepts exactly 0..2; index 1 is Testing. */
  lemma BranchTable(i: nat, b: DebianBranch)
    ensures BranchAt(i).Some? <==> i < 3
    ensures BranchAt(BranchIndex(b)) == Some(b)
    ensures BranchAt(i) == Some(b) <==> i == BranchIndex(b)
  {
  }

  /** The filesystem table accepts exactly 0..2; index 2 is Zfs. */
  lemma FilesystemTable(i: nat, f: Filesystem)
    ensures FilesystemAt(i).Some? <==> i < 3
    ensures FilesystemAt(FilesystemIndex(f)) == Some(f)
    ensures FilesystemAt(i) == Some(f) <==> i == FilesystemIndex(f)
  {
  }

  // ---------------------------------------------------------------------------
  // Debian branch codenames and the sources.list line
  // ---------------------------------------------------------------------------

  function Codename(b: DebianBranch): (r: string)
    ensures BranchOfCodename(r) == Some(b)
  {
    match b
    case Stable => "trixie"
    case Testing => "forky"
    case Unstable => "sid"
  }

  /** Inverse of Codename on the three codenames. */
  function BranchOfCodename(s: string): Option<DebianBranch>
  {
    if s == "trixie" then Some(Stable)
    else if s == "forky" then Some(Testing)
    else if s == "sid" then Some(Unstable)
    else None
  }

  lemma CodenameRoundTrip(b: DebianBranch, s: string)
    ensures BranchOfCodename(Codename(b)) == Some(b)
    ensures BranchOfCodename(s) == Some(b) <==> s == Codename(b)
  {
  }

  const MirrorPrefix: string := "deb http://deb.debian.org/debian "
  const ComponentSuffix: string := " main"

  /** The single line written to /etc/apt/sources.list for a branch. */
  function SourcesLine(b: DebianBranch): string
  {
    MirrorPrefix + Codename(b) + ComponentSuffix
  }

  /** Reads back the branch from a sources.list line of the shape SourcesLine writes. */
  function ParseSourcesLine(line: string): Option<DebianBranch>
  {
    if |MirrorPrefix| + |ComponentSuffix| <= |line|
       && line[..|MirrorPrefix|] == MirrorPrefix
       && line[|line| - |ComponentSuffix|..] == ComponentSuffix
    then BranchOfCodename(line[|MirrorPrefix|..|line| - |ComponentSuffix|])
    else None
  }

  /** The sources line is the mirror line for the codename, and it determines the branch. */
  lemma SourcesLineRoundTrip(b: DebianBranch)
    ensures SourcesLine(b)[..|MirrorPrefix|] == MirrorPrefix
    ensures EndsWith(SourcesLine(b), ComponentSuffix)
    ensures ParseSourcesLine(SourcesLine(b)) == Some(b)
  {
    var line := SourcesLine(b);
    assert line[..|MirrorPrefix|] == MirrorPrefix;
    assert line[|line| - |ComponentSuffix|..] == ComponentSuffix;
    assert line[|MirrorPrefix|..|line| - |ComponentSuffix|] == Codename(b);
  }

  /** Distinct branches give distinct sources lines. */
  lemma SourcesLineInjective(b1: DebianBranch, b2: DebianBranch)
    requires SourcesLine(b1) == SourcesLine(b2)
    ensures b1 == b2
  {
    SourcesLineRoundTrip(b1);
    SourcesLineRoundTrip(b2);
  }

  // ---------------------------------------------------------------------------
  // Filesystem formatter, preview image, desktop packages
  // ---------------------------------------------------------------------------

  /** The program perform_installation starts to format the root partition. */
  function FormatterOf(f: Filesystem): string
  {
    match f
    case Btrfs => "mkfs.btrfs"
    case Ext4 => "mkfs.ext4"
    case Zfs => "zpool create"
  }

  lemma FormatterInjective(f1: Filesystem, f2: Filesystem)
    ensures FormatterOf(f1) == FormatterOf(f2) <==> f1 == f2
  {
  }

  function PreviewImage(e: Edition): string
  {
    match e
    case Official => "plasma.png"
    case Gnome => "gnome.png"
    case Xfce => "xfce.png"
    case Blue => "blue.png"
    case Hydra => "hydra.png"
    case Cybersecurity => "cybersecurity.png"
    case Wayfire => "wayfire.png"
    case Atomic => "atomic.png"
  }

  const ImageDir: string := "/usr/share/HackerOS-Installer/images/"

  /** Path shown by the edition preview; no preview when no edition is chosen. */
  function PreviewPath(e: Option<Edition>): (r: Option<string>)
    ensures r.Some? <==> e.Some?
    ensures r.Some? ==> ImageDir <= r.value
  {
    match e
    case None => None
    case Some(ed) => Some(ImageDir + PreviewImage(ed))
  }

  /** Each edition has its own preview image, under the image directory. */
  lemma PreviewPathInjective(e1: Edition, e2: Edition)
    ensures PreviewPath(Some(e1)).Some? && PreviewPath(Some(e1)).value[..|ImageDir|] == ImageDir
    ensures PreviewPath(Some(e1)) == PreviewPath(Some(e2)) <==> e1 == e2
  {
    var p1, p2 := PreviewPath(Some(e1)).value, PreviewPath(Some(e2)).value;
    assert p1[..|ImageDir|] == ImageDir;
    if p1 == p2 {
      assert p1[|ImageDir|..] == PreviewImage(e1);
      assert p2[|ImageDir|..] == PreviewImage(e2);
    }
  }

  const PlasmaPackages: string := "kde-plasma-desktop sddm"
  const GnomePackages: string := "gnome gdm3"
  const XfcePackages: string := "xfce4 lightdm"
  const BluePackages: string := "sddm"
  const CybersecurityPackages: string := "nmap wireshark"
  const WayfirePackages: string := "wayfire sddm"

  /**
   * The packages an edition installs with `apt install -y` inside the target
   * root; Hydra installs none (it clones and copies a configuration).
   */
  function DesktopPackages(e: Edition): (r: Option<string>)
    ensures r.None? <==> e == Hydra
  {
    match e
    case Official => Some(PlasmaPackages)
    case Gnome => Some(GnomePackages)
    case Xfce => Some(XfcePackages)
    case Blue => Some(BluePackages)
    case Hydra => None
    case Cybersecurity => Some(CybersecurityPackages)
    case Wayfire => Some(WayfirePackages)
    case Atomic => Some(PlasmaPackages)
  }

  // ---------------------------------------------------------------------------
  // `url.split('/').last().unwrap()` and the chmod rule of download_file
  // ---------------------------------------------------------------------------

  /** Where the last `/`-separated segment of `s` starts: just after its last '/', or 0 when there is none. */
  function SegmentStart(s: string): (k: nat)
    ensures k <= |s|
    ensures forall i :: k <= i < |s| ==> s[i] != '/'
    ensures k > 0 ==> s[k - 1] == '/'
    decreases |s|
  {
    if s == [] then 0
    else if s[|s| - 1] == '/' then |s|
    else SegmentStart(s[..|s| - 1])
  }

  /**
   * The last `/`-separated segment of `s`: the longest suffix without a '/'.
   * `split` always yields at least one piece, so this is total.
   */
  function LastSegment(s: string): (r: string)
    ensures |r| <= |s| && r == s[|s| - |r|..]
    ensures '/' !in r
    ensures |r| < |s| ==> s[|s| - |r| - 1] == '/'
  {
    s[SegmentStart(s)..]
  }

  /** The segment after the last slash of `dir + "/" + name` is `name`. */
  lemma LastSegmentAfterSlash(dir: string, name: string)
    requires '/' !in name
    ensures LastSegment(dir + "/" + name) == name
  {
    var s := dir + "/" + name;
    var k := SegmentStart(s);
    assert s[|dir|] == '/';
    assert forall i :: |dir| < i < |s| ==> s[i] == name[i - |dir| - 1];
    assert k == |dir| + 1;
    assert s[k..] == name;
  }

  /** Every URL made of `dir`, a '/' and a name without '/' ends with that name as its last segment. */
  lemma LastSegmentsAfterSlash(dir: string, names: seq<string>, urls: seq<string>)
    requires |urls| == |names|
    requires forall j :: 0 <= j < |names| ==> urls[j] == dir + "/" + names[j] && '/' !in names[j]
    ensures forall j :: 0 <= j < |names| ==> LastSegment(urls[j]) == names[j]
  {
    forall j | 0 <= j < |names|
      ensures LastSegment(urls[j]) == names[j]
    {
      LastSegmentAfterSlash(dir, names[j]);
    }
  }

  /** download_file marks the file executable unless it ends in '/' or ".desktop". */
  predicate NeedsChmod(path: string)
  {
    !EndsWith(path, "/") && !EndsWith(path, ".desktop")
  }

  /** A file name without '/' or '.' placed in a directory is marked executable. */
  lemma ChmodForPlainNames(dir: string, name: string)
    requires |dir| > 0 && dir[|dir| - 1] == '/'
    requires name != [] && '/' !in name && '.' !in name
    ensures NeedsChmod(dir + name)
  {
    var p := dir + name;
    assert p[|p| - 1] == name[|name| - 1];
    if |name| >= 8 {
      assert p[|p| - 8] == name[|name| - 8];
    } else {
      assert p[|p| - |name| - 1] == '/';
    }
  }
}
