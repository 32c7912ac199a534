/**
 * rdct.rs, the earlier flat-list prototype: three fixed lists of options (repositories,
 * virtualization, desktop), a two-panel key handler, and a script generator whose
 * "No options selected" test counts lines with Rust's `str::lines`.
 */
module Rdct {
  import opened Prelude
  import opened OsRelease
  import opened Commands

  /** `MenuItem`: which list the content panel shows. */
  datatype MenuItem = Home | Repos | Virt | Desktop

  /** `ActivePanel`: which panel has the focus. */
  datatype ActivePanel = Menu | Content

  /** One `(&str, bool)` entry of a list: its label and whether it is selected. */
  datatype Entry = Entry(name: string, selected: bool)

  /** Every field of `App` that key handling changes (`os_distro` never changes). */
  datatype State = State(
    activeMenuItem: MenuItem,
    repoList: seq<Entry>,
    virtList: seq<Entry>,
    desktopList: seq<Entry>,
    activePanel: ActivePanel,
    menuIndex: nat,
    selectedIndex: nat)

  /** How `run_app` returns: `q` quits, `i` and `r` print the generated commands and quit. */
  datatype Exit = Quit | Print(commands: string)

  // ---------------------------------------------------------------------------
  // App::new
  // ---------------------------------------------------------------------------

  /** The repository options: four for RHEL and CentOS (they differ in the builder's label), none otherwise. */
  function RepoEntries(os: OsDistribution): seq<Entry>
  {
    match os
    case Rhel => [
      Entry("EPEL (Extra Packages for Enterprise Linux)", false),
      Entry("CodeReady Linux Builder", false),
      Entry("Enable Real-Time (RT) repository", false),
      Entry("Enable High Availability (HA) repository", false)]
    case Centos => [
      Entry("EPEL (Extra Packages for Enterprise Linux)", false),
      Entry("CRB (CodeReady Builder)", false),
      Entry("Enable Real-Time (RT) repository", false),
      Entry("Enable High Availability (HA) repository", false)]
    case Unknown => []
  }

  function VirtEntries(): seq<Entry>
  {
    [Entry("Install KVM & Tools (@virtualization)", false),
     Entry("Install & Enable Cockpit Web Console", false),
     Entry("Install virt-manager (GUI Client)", false),
     Entry("Install Guest Tools (libguestfs-tools)", false)]
  }

  function DesktopEntries(): seq<Entry>
  {
    [Entry("Minimal GNOME Install", false),
     Entry("Full GNOME Desktop Environment", false)]
  }

  /** The state `App::new` builds for the detected distribution. */
  function Initial(os: OsDistribution): State
  {
    State(Home, RepoEntries(os), VirtEntries(), DesktopEntries(), Menu, 0, 0)
  }

  // ---------------------------------------------------------------------------
  // The lists
  // ---------------------------------------------------------------------------

  /** The list lengths `generate_commands` indexes into without checking. */
  predicate Shaped(s: State)
  {
    (|s.repoList| == 0 || |s.repoList| == 4) && |s.virtList| == 4 && |s.desktopList| == 2
  }

  /** `list_len` of the Down key in the content panel: 0 on the Home screen. */
  function ListLen(s: State): nat
  {
    match s.activeMenuItem
    case Repos => |s.repoList|
    case Virt => |s.virtList|
    case Desktop => |s.desktopList|
    case Home => 0
  }

  /**
   * What holds in every state the program reaches: the list sizes `App::new` chose (the
   * repository list is empty exactly when the distribution is unknown), a menu index the
   * `unreachable!()` arm never sees, and a content index that is 0 or inside the list.
   */
  predicate Inv(os: OsDistribution, s: State)
  {
    Shaped(s) && (|s.repoList| == 0 <==> os == Unknown) &&
    s.menuIndex < 3 &&
    (s.selectedIndex == 0 || s.selectedIndex < ListLen(s))
  }

  /** `get_active_list_mut`: the list the active menu item names; Home falls back to the repositories. */
  function ActiveList(s: State): seq<Entry>
  {
    match s.activeMenuItem
    case Repos => s.repoList
    case Virt => s.virtList
    case Desktop => s.desktopList
    case Home => s.repoList
  }

  /** Writes back through the reference `get_active_list_mut` hands out. */
  function WithActiveList(s: State, l: seq<Entry>): State
  {
    match s.activeMenuItem
    case Repos => s.(repoList := l)
    case Virt => s.(virtList := l)
    case Desktop => s.(desktopList := l)
    case Home => s.(repoList := l)
  }

  /** `toggle_selection`: flip the highlighted entry of the active list, if there is one. */
  function Toggled(s: State): State
  {
    var l := ActiveList(s);
    var i := s.selectedIndex;
    if i < |l| then WithActiveList(s, l[i := Entry(l[i].name, !l[i].selected)]) else s
  }

  /** The names of the selected entries, in list order. */
  function SelectedNames(l: seq<Entry>): (ns: seq<string>)
    ensures |ns| <= |l|
    decreases |l|
  {
    if l == [] then []
    else
      var last := l[|l| - 1];
      SelectedNames(l[..|l| - 1]) + (if last.selected then [last.name] else [])
  }

  /** `get_selected_items`: repositories first, then virtualization, then desktop. */
  function SelectedItems(s: State): seq<string>
  {
    SelectedNames(s.repoList) + SelectedNames(s.virtList) + SelectedNames(s.desktopList)
  }

  // ---------------------------------------------------------------------------
  // generate_commands
  // ---------------------------------------------------------------------------

  /** The usage line of this program's header, and the blank line after it. */
  function UsageLine(): string
  {
    UsageText() + "\n" + "\n"
  }

  // The longer texts below are written as joins of short pieces; the text is the same, and the
  // verifier handles short literals much faster than long ones.

  /** The usage line without its newline. */
  function UsageText(): string
  {
    "# Run this script" + " with sudo:" + " sudo bash" + " ./commands.sh"
  }

  /** The header: shebang, the OS in its `Debug` spelling, the usage line, a blank line. */
  function ScriptHeader(os: OsDistribution): string
  {
    ShebangLine() + OriginLine(os) + UsageLine()
  }

  function EpelCommand(): string
  {
    "sudo dnf install" + " -y" + " epel-release\n"
  }

  /** The builder repository has a different name on each distribution. */
  function BuilderCommand(os: OsDistribution): string
  {
    match os
    case Rhel => "sudo dnf" + " config-manager" + " --set-enabled" + " codeready-builder" + "-for-rhel-10" + "-rhui-rpms\n"
    case Centos => "sudo dnf" + " config-manager" + " --set-enabled" + " crb\n"
    case Unknown => "# SKIPPING" + " BUILDER REPO:" + " Unknown OS\n"
  }

  function RtCommand(): string
  {
    "sudo dnf" + " config-manager" + " --set-enabled" + " rt\n"
  }

  function HaCommand(): string
  {
    "sudo dnf" + " config-manager" + " --set-enabled" + " ha\n"
  }

  function KvmCommands(): string
  {
    "sudo dnf install" + " -y" + " @virtualization\n" + "sudo systemctl" + " enable --now" + " libvirtd\n"
  }

  function CockpitCommands(): string
  {
    "sudo dnf install" + " -y cockpit\n" + "sudo systemctl" + " enable --now" + " cockpit.socket\n" +
    "sudo" + " firewall-cmd" + " --add-service" + "=cockpit" + " --permanent\n" + "sudo" + " firewall-cmd" + " --reload\n"
  }

  function VirtManagerCommand(): string
  {
    "sudo dnf install" + " -y" + " virt-manager\n"
  }

  function GuestToolsCommand(): string
  {
    "sudo dnf install" + " -y" + " libguestfs-tools\n"
  }

  function MinimalGnomeCommands(): string
  {
    "sudo dnf" + " groupinstall -y" + " 'Server with" + " GUI'" + " --exclude=" + "gnome-software," + "gnome-tour\n" +
    "sudo systemctl" + " set-default" + " graphical.target\n"
  }

  function WorkstationCommands(): string
  {
    "sudo dnf" + " groupinstall -y" + " 'Workstation'\n" + "sudo systemctl" + " set-default" + " graphical.target\n"
  }

  /** The commands `generate_commands` attaches to the repository entries, by position. */
  function RepoTexts(os: OsDistribution): seq<string>
  {
    [EpelCommand(), BuilderCommand(os), RtCommand(), HaCommand()]
  }

  function VirtTexts(): seq<string>
  {
    [KvmCommands(), CockpitCommands(), VirtManagerCommand(), GuestToolsCommand()]
  }

  function DesktopTexts(): seq<string>
  {
    [MinimalGnomeCommands(), WorkstationCommands()]
  }

  /** For each selected entry in order, the command text at its position. */
  function Pushes(l: seq<Entry>, texts: seq<string>): string
    requires |l| <= |texts|
    decreases |l|
  {
    if l == [] then ""
    else
      var k := |l| - 1;
      Pushes(l[..k], texts) + (if l[k].selected then texts[k] else "")
  }

  /** Everything the selections push after the header: repositories, then virtualization, then desktop. */
  function SelectedCommands(os: OsDistribution, s: State): string
    requires Shaped(s)
  {
    Pushes(s.repoList, RepoTexts(os)) + Pushes(s.virtList, VirtTexts()) + Pushes(s.desktopList, DesktopTexts())
  }

  /** The marker test: append the marker when the text has at most `limit` lines. */
  function MarkIfShort(commands: string, limit: nat): string
  {
    if |Lines(commands)| <= limit then commands + NoOptionsSelected() else commands
  }

  /** `generate_commands` as written, with the test `lines().count() <= 3`. */
  function CommandsAsWritten(os: OsDistribution, s: State, reboot: bool): string
    requires Shaped(s)
  {
    MarkIfShort(ScriptHeader(os) + SelectedCommands(os, s), 3) + Ending(reboot)
  }

  /** `generate_commands` with the intended test: at most the header's four lines. */
  function GeneratedCommands(os: OsDistribution, s: State, reboot: bool): string
    requires Shaped(s)
  {
    Marked(os, s) + Ending(reboot)
  }

  /** The text before the reboot lines, with the intended marker test. */
  function Marked(os: OsDistribution, s: State): string
    requires Shaped(s)
  {
    MarkIfShort(ScriptHeader(os) + SelectedCommands(os, s), 4)
  }

  // ---------------------------------------------------------------------------
  // run_app: one key
  // ---------------------------------------------------------------------------

  /** The list the menu panel's rows open, top to bottom. */
  function ItemAt(i: nat): MenuItem
    requires i < 3
  {
    if i == 0 then Repos else if i == 1 then Virt else Desktop
  }

  /** What `q`, `i` and `r` do: quit, or print the commands (with the reboot lines for `r`) and quit. */
  datatype GlobalAction = QuitKey | InstallKey(reboot: bool)

  /** The keys checked before either panel sees the key. */
  function GlobalKey(key: KeyCode): Option<GlobalAction>
  {
    match key
    case Char(c) =>
      if c == 'q' then Some(QuitKey)
      else if c == 'i' then Some(InstallKey(false))
      else if c == 'r' then Some(InstallKey(true))
      else None
    case _ => None
  }

  /** How `run_app` returns for a global key. */
  function ExitFor(os: OsDistribution, s: State, a: GlobalAction): Exit
    requires Shaped(s)
  {
    match a
    case QuitKey => Quit
    case InstallKey(reboot) => Print(GeneratedCommands(os, s, reboot))
  }

  /** A key that ends the loop ends it with that key's exit. */
  lemma ExitOfSome(os: OsDistribution, s: State, a: GlobalAction)
    requires Shaped(s)
    ensures ExitOf(os, s, Some(a)) == Some(ExitFor(os, s, a))
  {
  }

  /** `q` ends the program without printing anything. */
  lemma ExitForQuit(os: OsDistribution, s: State)
    requires Shaped(s)
    ensures ExitFor(os, s, QuitKey) == Quit
  {
  }

  /** `i` and `r` print the commands generated for the state the key found. */
  lemma ExitForInstall(os: OsDistribution, s: State, reboot: bool)
    requires Shaped(s)
    ensures ExitFor(os, s, InstallKey(reboot)) == Print(GeneratedCommands(os, s, reboot))
  {
  }

  /** How `run_app` returns, if a key ended it. */
  function ExitOf(os: OsDistribution, s: State, a: Option<GlobalAction>): Option<Exit>
    requires Shaped(s)
  {
    if a.Some? then Some(ExitFor(os, s, a.value)) else None
  }

  /** A key in the menu panel: Down and Up cycle through the three rows, Enter/Right/Tab open one. */
  function MenuKey(s: State, key: KeyCode): State
    requires s.menuIndex < 3
  {
    match key
    case Down => s.(menuIndex := (s.menuIndex + 1) % 3)
    case Up => s.(menuIndex := (s.menuIndex + 3 - 1) % 3)
    case Enter => Opened(s)
    case Right => Opened(s)
    case Tab => Opened(s)
    case _ => s
  }

  /** Opening the highlighted menu row moves the focus to its list, at the top. */
  function Opened(s: State): State
    requires s.menuIndex < 3
  {
    s.(activePanel := Content, activeMenuItem := ItemAt(s.menuIndex), selectedIndex := 0)
  }

  /** A key in the content panel: Left/Tab go back, Up/Down move within the list, Enter/space toggle. */
  function ContentKey(s: State, key: KeyCode): State
  {
    match key
    case Left => s.(activePanel := Menu)
    case Tab => s.(activePanel := Menu)
    case Up => if s.selectedIndex > 0 then s.(selectedIndex := s.selectedIndex - 1) else s
    case Down =>
      var len := ListLen(s);
      if len > 0 && s.selectedIndex < len - 1 then s.(selectedIndex := s.selectedIndex + 1) else s
    case Enter => Toggled(s)
    case Char(c) => if c == ' ' then Toggled(s) else s
    case _ => s
  }

  /** Any other key goes to the panel that has the focus. */
  function PanelKey(os: OsDistribution, s: State, key: KeyCode): (t: State)
    requires Inv(os, s)
    ensures Inv(os, t)
  {
    if s.activePanel == Menu then
      MenuKeyKeepsInv(os, s, key);
      MenuKey(s, key)
    else
      ToggledKeepsInv(os, s);
      ContentKeyKeepsInv(os, s, key);
      ContentKey(s, key)
  }

  /** One pass of the `run_app` loop with a key event: the new state and the global key that ends the loop, if it was one. */
  function Step(os: OsDistribution, s: State, key: KeyCode): (r: (State, Option<GlobalAction>))
    requires Inv(os, s)
    ensures Inv(os, r.0)
  {
    match GlobalKey(key)
    case Some(a) => (s, Some(a))
    case None => (PanelKey(os, s, key), None)
  }

  /** The state after the keys, and the key action that ended the loop, if one did. */
  function Run(os: OsDistribution, s: State, keys: seq<KeyCode>): (r: (State, Option<GlobalAction>))
    requires Inv(os, s)
    ensures Inv(os, r.0)
    decreases |keys|
  {
    if keys == [] then (s, None)
    else
      var (t, a) := Step(os, s, keys[0]);
      if a.Some? then (t, a) else Run(os, t, keys[1..])
  }

  // ---------------------------------------------------------------------------
  // Lemmas: the lists
  // ---------------------------------------------------------------------------

  /** `App::new`: four repository options exactly on RHEL and CentOS, four virtualization and two desktop options, none selected. */
  lemma InitialState(os: OsDistribution)
    ensures Inv(os, Initial(os))
    ensures |Initial(os).repoList| == (if os == Unknown then 0 else 4)
    ensures |Initial(os).virtList| == 4 && |Initial(os).desktopList| == 2
    ensures SelectedItems(Initial(os)) == []
  {
    var s := Initial(os);
    SelectedNamesEmptyIff(s.repoList);
    SelectedNamesEmptyIff(s.virtList);
    SelectedNamesEmptyIff(s.desktopList);
  }

  /** The builder entry is labelled after the distribution's own name for it. */
  lemma BuilderLabel(os: OsDistribution)
    requires os != Unknown
    ensures RepoEntries(os)[1].name == if os == Rhel then "CodeReady Linux Builder" else "CRB (CodeReady Builder)"
  {
  }

  /** A name is listed as selected exactly when some selected entry carries it. */
  lemma {:induction false} SelectedNamesMembers(l: seq<Entry>, name: string)
    ensures name in SelectedNames(l) <==> exists k :: 0 <= k < |l| && l[k].selected && l[k].name == name
    decreases |l|
  {
    if l != [] {
      var init := l[..|l| - 1];
      SelectedNamesMembers(init, name);
      if name in SelectedNames(init) {
        var k :| 0 <= k < |init| && init[k].selected && init[k].name == name;
        assert l[k] == init[k];
      }
      if exists k :: 0 <= k < |l| && l[k].selected && l[k].name == name {
        var k :| 0 <= k < |l| && l[k].selected && l[k].name == name;
        if k < |init| {
          assert init[k] == l[k];
        }
      }
    }
  }

  /** Nothing is listed exactly when no entry is selected. */
  lemma {:induction false} SelectedNamesEmptyIff(l: seq<Entry>)
    ensures SelectedNames(l) == [] <==> forall k :: 0 <= k < |l| ==> !l[k].selected
    decreases |l|
  {
    if l != [] {
      var init := l[..|l| - 1];
      SelectedNamesEmptyIff(init);
      assert forall k :: 0 <= k < |init| ==> init[k] == l[k];
    }
  }

  /** `toggle_selection` flips the highlighted entry of the active list and changes nothing else. */
  lemma ToggleIsLocal(s: State)
    ensures var t := Toggled(s);
      t.activeMenuItem == s.activeMenuItem && t.activePanel == s.activePanel &&
      t.menuIndex == s.menuIndex && t.selectedIndex == s.selectedIndex
    ensures var t := Toggled(s); var l, l' := ActiveList(s), ActiveList(Toggled(s));
      |l'| == |l| &&
      (forall k :: 0 <= k < |l| ==> l'[k].name == l[k].name) &&
      (forall k :: 0 <= k < |l| ==> (l'[k].selected <==> (l[k].selected != (k == s.selectedIndex))))
    ensures var t := Toggled(s);
      (s.activeMenuItem in {Repos, Home} || t.repoList == s.repoList) &&
      (s.activeMenuItem == Virt || t.virtList == s.virtList) &&
      (s.activeMenuItem == Desktop || t.desktopList == s.desktopList)
  {
  }

  /** Toggling twice restores the state. */
  lemma ToggleTwiceRestores(s: State)
    ensures Toggled(Toggled(s)) == s
  {
    var l := ActiveList(s);
    var i := s.selectedIndex;
    if i < |l| {
      var l' := l[i := Entry(l[i].name, !l[i].selected)];
      assert ActiveList(Toggled(s)) == l';
      assert l'[i := Entry(l'[i].name, !l'[i].selected)] == l;
    }
  }

  /** Toggling keeps the list sizes and the invariant. */
  lemma ToggledKeepsInv(os: OsDistribution, s: State)
    requires Inv(os, s)
    ensures Inv(os, Toggled(s))
  {
    ToggleIsLocal(s);
  }

  /** The menu panel keeps the menu index below 3. */
  lemma MenuKeyKeepsInv(os: OsDistribution, s: State, key: KeyCode)
    requires Inv(os, s)
    ensures Inv(os, MenuKey(s, key))
  {
    match key
    case Down =>
    case Up =>
    case Enter =>
    case Right =>
    case Tab =>
    case _ =>
  }

  /** The content panel keeps the index 0 or inside the list. */
  lemma ContentKeyKeepsInv(os: OsDistribution, s: State, key: KeyCode)
    requires Inv(os, s) && Inv(os, Toggled(s))
    ensures Inv(os, ContentKey(s, key))
  {
  }

  // ---------------------------------------------------------------------------
  // Lemmas: the script header and the marker test
  // ---------------------------------------------------------------------------

  /** A text without a newline, then a newline, is one line and ends in a newline. */
  lemma OneLine(a: string)
    requires '\n' !in a
    ensures |Lines(a + "\n")| == 1 && (a + "\n")[|a|] == '\n'
  {
    assert a + "\n" == a + "\n" + "";
    LinesCons(a, "");
  }

  /** Three newline-terminated texts in a row have the lines of each, in order. */
  lemma ThreeTerminated(x: string, y: string, z: string)
    requires |x| > 0 && x[|x| - 1] == '\n'
    requires |y| > 0 && y[|y| - 1] == '\n'
    requires |z| > 0 && z[|z| - 1] == '\n'
    ensures |Lines(x + y + z)| == |Lines(x)| + |Lines(y)| + |Lines(z)|
    ensures (x + y + z)[|x + y + z| - 1] == '\n'
  {
    LinesAfterTerminated(y, z);
    LinesAfterTerminated(x, y + z);
    AppendAssoc(x, y, z);
  }

  lemma ShebangLineCount()
    ensures |Lines(ShebangLine())| == 1
    ensures ShebangLine()[|ShebangLine()| - 1] == '\n'
  {
    var a := "#!/bin/bash";
    assert ShebangLine() == a + "\n";
    OneLine(a);
  }

  lemma OriginLineCount(os: OsDistribution)
    ensures |Lines(OriginLine(os))| == 1
    ensures OriginLine(os)[|OriginLine(os)| - 1] == '\n'
  {
    assert '\n' !in "# Commands" && '\n' !in " generated for ";
    assert '\n' !in DebugName(os);
    assert '\n' !in " by RHEL/" && '\n' !in "CentOS TUI" && '\n' !in " Manager";
    OneLine(OriginText(os));
  }

  lemma UsageLineCount()
    ensures |Lines(UsageLine())| == 2
    ensures UsageLine()[|UsageLine()| - 1] == '\n'
  {
    var a := UsageText();
    assert '\n' !in "# Run this script";
    assert '\n' !in " with sudo:";
    assert '\n' !in " sudo bash";
    assert '\n' !in " ./commands.sh";
    assert UsageLine() == a + "\n" + ("" + "\n" + "");
    LinesCons(a, "" + "\n" + "");
    LinesCons("", "");
  }

  /** The header alone is four lines under `str::lines`: the blank line after the usage line counts. */
  lemma HeaderLineCount(os: OsDistribution)
    ensures |Lines(ScriptHeader(os))| == 4
    ensures ScriptHeader(os)[|ScriptHeader(os)| - 1] == '\n'
  {
    ShebangLineCount();
    OriginLineCount(os);
    UsageLineCount();
    ThreeTerminated(ShebangLine(), OriginLine(os), UsageLine());
  }

  /** Each line pushed after the header adds to the count; nothing pushed adds nothing. */
  lemma LinesAfterHeader(os: OsDistribution, pushed: string)
    ensures |Lines(ScriptHeader(os) + pushed)| == 4 + |Lines(pushed)|
    ensures |Lines(ScriptHeader(os) + pushed)| == 4 <==> pushed == ""
  {
    HeaderLineCount(os);
    LinesAfterTerminated(ScriptHeader(os), pushed);
    LinesEmptyIff(pushed);
  }

  /** Nothing is pushed exactly when no entry is selected, as long as every command text is non-empty. */
  lemma {:induction false} PushesEmptyIff(l: seq<Entry>, texts: seq<string>)
    requires |l| <= |texts| && forall k :: 0 <= k < |texts| ==> |texts[k]| > 0
    ensures |Pushes(l, texts)| == 0 <==> |SelectedNames(l)| == 0
    decreases |l|
  {
    if l != [] {
      PushesEmptyIff(l[..|l| - 1], texts);
    }
  }

  /** Four entries push their four texts, each when selected, in order. */
  lemma PushesOfFour(l: seq<Entry>, texts: seq<string>)
    requires |l| == 4 && |texts| >= 4
    ensures Pushes(l, texts) ==
      (if l[0].selected then texts[0] else "") + (if l[1].selected then texts[1] else "") +
      (if l[2].selected then texts[2] else "") + (if l[3].selected then texts[3] else "")
  {
    assert l[..3][..2] == l[..2] && l[..2][..1] == l[..1] && l[..1][..0] == [];
    assert l[..3][2] == l[2] && l[..2][1] == l[1] && l[..1][0] == l[0];
    assert Pushes(l[..1], texts) == (if l[0].selected then texts[0] else "");
    assert Pushes(l[..2], texts) == Pushes(l[..1], texts) + (if l[1].selected then texts[1] else "");
    assert Pushes(l[..3], texts) == Pushes(l[..2], texts) + (if l[2].selected then texts[2] else "");
  }

  /** Two entries push their two texts, each when selected, in order. */
  lemma PushesOfTwo(l: seq<Entry>, texts: seq<string>)
    requires |l| == 2 && |texts| >= 2
    ensures Pushes(l, texts) == (if l[0].selected then texts[0] else "") + (if l[1].selected then texts[1] else "")
  {
    assert l[..1][..0] == [] && l[..1][0] == l[0];
    assert Pushes(l[..1], texts) == (if l[0].selected then texts[0] else "");
  }

  /** No command text is empty. */
  lemma RepoTextsNonEmpty(os: OsDistribution)
    ensures forall k :: 0 <= k < |RepoTexts(os)| ==> |RepoTexts(os)[k]| > 0
  {
    var t := RepoTexts(os);
    assert t[0] == EpelCommand() && t[1] == BuilderCommand(os) && t[2] == RtCommand() && t[3] == HaCommand();
    assert |EpelCommand()| > 0;
    BuilderCommandNonEmpty(os);
    assert |RtCommand()| > 0;
    assert |HaCommand()| > 0;
  }

  lemma BuilderCommandNonEmpty(os: OsDistribution)
    ensures |BuilderCommand(os)| > 0
  {
    match os {
      case Rhel =>
      case Centos =>
      case Unknown =>
    }
  }

  lemma VirtTextsNonEmpty()
    ensures forall k :: 0 <= k < |VirtTexts()| ==> |VirtTexts()[k]| > 0
  {
    var t := VirtTexts();
    assert t[0] == KvmCommands() && t[1] == CockpitCommands() && t[2] == VirtManagerCommand() && t[3] == GuestToolsCommand();
    assert |KvmCommands()| > 0;
    assert |CockpitCommands()| > 0;
    assert |VirtManagerCommand()| > 0;
    assert |GuestToolsCommand()| > 0;
  }

  lemma DesktopTextsNonEmpty()
    ensures forall k :: 0 <= k < |DesktopTexts()| ==> |DesktopTexts()[k]| > 0
  {
    var t := DesktopTexts();
    assert t[0] == MinimalGnomeCommands() && t[1] == WorkstationCommands();
    assert |MinimalGnomeCommands()| > 0;
    assert |WorkstationCommands()| > 0;
  }

  /** Something is pushed after the header exactly when `get_selected_items` is non-empty. */
  lemma SelectedCommandsEmptyIff(os: OsDistribution, s: State)
    requires Shaped(s)
    ensures SelectedCommands(os, s) == "" <==> SelectedItems(s) == []
  {
    RepoTextsNonEmpty(os);
    VirtTextsNonEmpty();
    DesktopTextsNonEmpty();
    JoinedPushesEmptyIff(s.repoList, s.virtList, s.desktopList, RepoTexts(os), VirtTexts(), DesktopTexts());
  }

  /** The three lists push nothing exactly when none of their entries is selected. */
  lemma JoinedPushesEmptyIff(r: seq<Entry>, v: seq<Entry>, d: seq<Entry>, rt: seq<string>, vt: seq<string>, dt: seq<string>)
    requires |r| <= |rt| && forall k :: 0 <= k < |rt| ==> |rt[k]| > 0
    requires |v| <= |vt| && forall k :: 0 <= k < |vt| ==> |vt[k]| > 0
    requires |d| <= |dt| && forall k :: 0 <= k < |dt| ==> |dt[k]| > 0
    ensures Pushes(r, rt) + Pushes(v, vt) + Pushes(d, dt) == "" <==>
      SelectedNames(r) + SelectedNames(v) + SelectedNames(d) == []
  {
    PushesEmptyIff(r, rt);
    PushesEmptyIff(v, vt);
    PushesEmptyIff(d, dt);
    var a, b, c := Pushes(r, rt), Pushes(v, vt), Pushes(d, dt);
    var x, y, z := SelectedNames(r), SelectedNames(v), SelectedNames(d);
    assert |a + b + c| == |a| + |b| + |c|;
    assert |x + y + z| == |x| + |y| + |z|;
  }

  /** As written, the marker is never appended: the text already has at least four lines. */
  lemma AsWrittenNeverMarks(os: OsDistribution, s: State, reboot: bool)
    requires Shaped(s)
    ensures CommandsAsWritten(os, s, reboot) == ScriptHeader(os) + SelectedCommands(os, s) + Ending(reboot)
  {
    LinesAfterHeader(os, SelectedCommands(os, s));
  }

  /** The input that shows it: with nothing selected (as in the state `App::new` builds) the script is the bare header, without the marker. */
  lemma AsWrittenOmitsMarker(os: OsDistribution, s: State)
    requires Shaped(s) && SelectedItems(s) == []
    ensures CommandsAsWritten(os, s, false) == ScriptHeader(os)
  {
    SelectedCommandsEmptyIff(os, s);
    AsWrittenNeverMarks(os, s, false);
    assert ScriptHeader(os) + SelectedCommands(os, s) == ScriptHeader(os);
  }

  /** With the intended test the marker appears exactly when nothing is selected, and the selections' commands otherwise. */
  lemma GeneratedMarksExactlyWhenNothingSelected(os: OsDistribution, s: State, reboot: bool)
    requires Shaped(s)
    ensures GeneratedCommands(os, s, reboot) ==
      ScriptHeader(os) + (if SelectedItems(s) == [] then NoOptionsSelected() else SelectedCommands(os, s)) + Ending(reboot)
  {
    MarkedExactlyWhenNothingSelected(os, s);
  }

  /** The text before the reboot lines: the header, then the marker or the selections' commands. */
  lemma MarkedExactlyWhenNothingSelected(os: OsDistribution, s: State)
    requires Shaped(s)
    ensures Marked(os, s) == ScriptHeader(os) + (if SelectedItems(s) == [] then NoOptionsSelected() else SelectedCommands(os, s))
  {
    var h, p := ScriptHeader(os), SelectedCommands(os, s);
    LinesAfterHeader(os, p);
    SelectedCommandsEmptyIff(os, s);
    if SelectedItems(s) == [] {
      assert h + p == h;
    } else {
      assert |Lines(h + p)| > 4;
    }
  }

  /**
   * The corrected text against the text as written: the same whenever something is selected;
   * with nothing selected, only the corrected one carries the marker.
   */
  lemma CorrectedAgainstAsWritten(os: OsDistribution, s: State, reboot: bool)
    requires Shaped(s)
    ensures SelectedItems(s) != [] ==> GeneratedCommands(os, s, reboot) == CommandsAsWritten(os, s, reboot)
    ensures SelectedItems(s) == [] ==>
      GeneratedCommands(os, s, reboot) == ScriptHeader(os) + NoOptionsSelected() + Ending(reboot) &&
      CommandsAsWritten(os, s, reboot) == ScriptHeader(os) + Ending(reboot)
  {
    AsWrittenNeverMarks(os, s, reboot);
    GeneratedMarksExactlyWhenNothingSelected(os, s, reboot);
    SelectedCommandsEmptyIff(os, s);
    if SelectedItems(s) == [] {
      assert ScriptHeader(os) + SelectedCommands(os, s) == ScriptHeader(os);
    }
  }

  /** `r` differs from `i` only by the two reboot lines at the end. */
  lemma GeneratedWithReboot(os: OsDistribution, s: State)
    requires Shaped(s)
    ensures GeneratedCommands(os, s, true) == GeneratedCommands(os, s, false) + RebootLines()
  {
  }

  /** The branch for an unknown distribution's builder repository is never taken: its list is empty. */
  lemma NoRepoCommandsWhenUnknown(s: State)
    requires Inv(Unknown, s)
    ensures Pushes(s.repoList, RepoTexts(Unknown)) == ""
  {
  }

  // ---------------------------------------------------------------------------
  // Lemmas: keys
  // ---------------------------------------------------------------------------

  /** Exactly `q`, `i` and `r` end the program, from either panel, without changing the state. */
  lemma ExitKeys(os: OsDistribution, s: State, key: KeyCode)
    requires Inv(os, s)
    ensures Step(os, s, key).1.Some? <==> key == Char('q') || key == Char('i') || key == Char('r')
    ensures Step(os, s, key).1.Some? ==> Step(os, s, key).0 == s
    ensures key == Char('q') ==> Step(os, s, key).1 == Some(QuitKey)
    ensures key == Char('i') ==> Step(os, s, key).1 == Some(InstallKey(false))
    ensures key == Char('r') ==> Step(os, s, key).1 == Some(InstallKey(true))
  {
  }

  /** Every other key goes to the panel that has the focus and never ends the program. */
  lemma PanelKeys(os: OsDistribution, s: State, key: KeyCode)
    requires Inv(os, s) && GlobalKey(key) == None
    ensures Step(os, s, key) == (PanelKey(os, s, key), None)
    ensures PanelKey(os, s, key) == if s.activePanel == Menu then MenuKey(s, key) else ContentKey(s, key)
  {
  }

  /** Down in the menu panel moves to the next row, wrapping from the last to the first. */
  lemma MenuDownWraps(s: State)
    requires s.menuIndex < 3
    ensures MenuKey(s, Down) == s.(menuIndex := if s.menuIndex == 2 then 0 else s.menuIndex + 1)
  {
  }

  /** Up in the menu panel moves to the previous row, wrapping from the first to the last. */
  lemma MenuUpWraps(s: State)
    requires s.menuIndex < 3
    ensures MenuKey(s, Up) == s.(menuIndex := if s.menuIndex == 0 then 2 else s.menuIndex - 1)
  {
  }

  /** Down then Up in the menu panel restores the state. */
  lemma MenuDownThenUpRestores(s: State)
    requires s.menuIndex < 3
    ensures MenuKey(s, Down).menuIndex < 3 && MenuKey(MenuKey(s, Down), Up) == s
  {
    MenuDownWraps(s);
    MenuUpWraps(MenuKey(s, Down));
  }

  /** Enter, Right and Tab in the menu panel open the highlighted list at its first entry. */
  lemma MenuOpens(s: State, key: KeyCode)
    requires s.menuIndex < 3 && (key == Enter || key == Right || key == Tab)
    ensures var t := MenuKey(s, key);
      t.activePanel == Content && t.selectedIndex == 0 &&
      t.activeMenuItem == [Repos, Virt, Desktop][s.menuIndex] &&
      t.menuIndex == s.menuIndex && t.repoList == s.repoList &&
      t.virtList == s.virtList && t.desktopList == s.desktopList
  {
  }

  /** Left and Tab in the content panel give the focus back to the menu and change nothing else. */
  lemma ContentBack(s: State, key: KeyCode)
    requires key == Left || key == Tab
    ensures ContentKey(s, key) == s.(activePanel := Menu)
  {
  }

  /** Up in the content panel moves up one entry and stops at the first. */
  lemma ContentUpSaturates(s: State)
    ensures ContentKey(s, Up) == s.(selectedIndex := if s.selectedIndex == 0 then 0 else s.selectedIndex - 1)
  {
  }

  /** Down in the content panel moves down one entry and stops at the last (or stays at 0 in an empty list). */
  lemma ContentDownBounded(s: State)
    ensures var t := ContentKey(s, Down);
      t == s.(selectedIndex := t.selectedIndex) &&
      t.selectedIndex == (if s.selectedIndex + 1 < ListLen(s) then s.selectedIndex + 1 else s.selectedIndex)
  {
  }

  /** Enter and space in the content panel toggle the highlighted entry. */
  lemma ContentToggles(s: State, key: KeyCode)
    requires key == Enter || key == Char(' ')
    ensures ContentKey(s, key) == Toggled(s)
  {
  }

  // ---------------------------------------------------------------------------
  // The App
  // ---------------------------------------------------------------------------

  /** `App`, with the fields key handling updates in place. */
  class App {
    var activeMenuItem: MenuItem
    var repoList: seq<Entry>
    var virtList: seq<Entry>
    var desktopList: seq<Entry>
    var activePanel: ActivePanel
    var menuIndex: nat
    var selectedIndex: nat
    const osDistro: OsDistribution

    function Snapshot(): State
      reads this
    {
      State(activeMenuItem, repoList, virtList, desktopList, activePanel, menuIndex, selectedIndex)
    }

    ghost predicate Valid()
      reads this
    {
      Inv(osDistro, Snapshot())
    }

    /** `App::new`, given what reading `/etc/os-release` gave (`None` when it failed). */
    constructor(osRelease: Option<string>)
      ensures osDistro == ParseOsRelease(osRelease)
      ensures Snapshot() == Initial(osDistro) && Valid()
    {
      var os := DetectOs(osRelease);
      var repo: seq<Entry>;
      match os {
      case Rhel =>
        repo := [
          Entry("EPEL (Extra Packages for Enterprise Linux)", false),
          Entry("CodeReady Linux Builder", false),
          Entry("Enable Real-Time (RT) repository", false),
          Entry("Enable High Availability (HA) repository", false)];
      case Centos =>
        repo := [
          Entry("EPEL (Extra Packages for Enterprise Linux)", false),
          Entry("CRB (CodeReady Builder)", false),
          Entry("Enable Real-Time (RT) repository", false),
          Entry("Enable High Availability (HA) repository", false)];
      case Unknown =>
        repo := [];
      }
      activeMenuItem := Home;
      repoList := repo;
      virtList := [
        Entry("Install KVM & Tools (@virtualization)", false),
        Entry("Install & Enable Cockpit Web Console", false),
        Entry("Install virt-manager (GUI Client)", false),
        Entry("Install Guest Tools (libguestfs-tools)", false)];
      desktopList := [
        Entry("Minimal GNOME Install", false),
        Entry("Full GNOME Desktop Environment", false)];
      activePanel := Menu;
      menuIndex := 0;
      selectedIndex := 0;
      osDistro := os;
      new;
      InitialState(os);
    }

    /** `toggle_selection`. */
    method ToggleSelection()
      modifies this
      ensures Snapshot() == Toggled(old(Snapshot()))
    {
      var i := selectedIndex;
      var list := ActiveList(Snapshot());
      if i < |list| {
        list := list[i := Entry(list[i].name, !list[i].selected)];
        match activeMenuItem
        case Repos => repoList := list;
        case Virt => virtList := list;
        case Desktop => desktopList := list;
        case Home => repoList := list;
      }
    }

    /** `get_selected_items`. */
    method GetSelectedItems() returns (selected: seq<string>)
      ensures selected == SelectedItems(Snapshot())
    {
      selected := [];
      selected := PushSelected(selected, repoList);
      selected := PushSelected(selected, virtList);
      selected := PushSelected(selected, desktopList);
    }

    /** One `iter().filter(..).for_each(push)` pass of `get_selected_items`. */
    static method PushSelected(start: seq<string>, list: seq<Entry>) returns (selected: seq<string>)
      ensures selected == start + SelectedNames(list)
    {
      selected := start;
      for k := 0 to |list|
        invariant selected == start + SelectedNames(list[..k])
      {
        assert list[..k + 1][..k] == list[..k];
        if list[k].selected {
          selected := selected + [list[k].name];
        }
      }
      assert list[..|list|] == list;
    }

    /** `generate_commands`, with the marker test corrected to the header's four lines. */
    method GenerateCommands(reboot: bool) returns (commands: string)
      requires Shaped(Snapshot())
      ensures commands == GeneratedCommands(osDistro, Snapshot(), reboot)
    {
      commands := PushSelectedCommands();
      commands := MarkIfFewLines(commands, 4);
      commands := PushEnding(commands, reboot);
    }

    /** The header followed by the commands of every selected entry, list by list. */
    method PushSelectedCommands() returns (commands: string)
      requires Shaped(Snapshot())
      ensures commands == ScriptHeader(osDistro) + SelectedCommands(osDistro, Snapshot())
    {
      commands := PushHeader();
      var header := commands;
      commands := PushRepoCommands(commands);
      commands := PushVirtCommands(commands);
      commands := PushDesktopCommands(commands);
      AppendAssoc(header, Pushes(repoList, RepoTexts(osDistro)), Pushes(virtList, VirtTexts()));
      AppendAssoc(header, Pushes(repoList, RepoTexts(osDistro)) + Pushes(virtList, VirtTexts()), Pushes(desktopList, DesktopTexts()));
    }

    /** The marker test of `generate_commands`: the marker is appended to a text of at most `limit` lines. */
    static method MarkIfFewLines(text: string, limit: nat) returns (commands: string)
      ensures commands == MarkIfShort(text, limit)
    {
      commands := text;
      if |Lines(commands)| <= limit {
        commands := commands + NoOptionsSelected();
      }
    }

    /** The reboot lines of `generate_commands`, when asked for. */
    static method PushEnding(text: string, reboot: bool) returns (commands: string)
      ensures commands == text + Ending(reboot)
    {
      commands := text;
      if reboot {
        commands := commands + RebootNotice();
        commands := commands + RebootCommand();
      }
    }

    /** The three header pushes of `generate_commands`. */
    method PushHeader() returns (commands: string)
      ensures commands == ScriptHeader(osDistro)
    {
      commands := "";
      commands := commands + ShebangLine();
      commands := commands + OriginLine(osDistro);
      commands := commands + UsageLine();
    }

    /** The repository block of `generate_commands`: skipped when the list is empty. */
    method PushRepoCommands(start: string) returns (commands: string)
      requires |repoList| == 0 || |repoList| == 4
      ensures commands == start + Pushes(repoList, RepoTexts(osDistro))
    {
      if repoList == [] {
        return start;
      }
      var t := RepoTexts(osDistro);
      var x0 := if repoList[0].selected then t[0] else "";
      var x1 := if repoList[1].selected then t[1] else "";
      var x2 := if repoList[2].selected then t[2] else "";
      var x3 := if repoList[3].selected then t[3] else "";
      commands := start;
      if repoList[0].selected {
        commands := commands + EpelCommand();
      }
      assert commands == start + x0;
      if repoList[1].selected {
        commands := commands + BuilderCommand(osDistro);
      }
      assert commands == start + x0 + x1;
      if repoList[2].selected {
        commands := commands + RtCommand();
      }
      assert commands == start + x0 + x1 + x2;
      if repoList[3].selected {
        commands := commands + HaCommand();
      }
      assert commands == start + x0 + x1 + x2 + x3;
      PushesOfFour(repoList, t);
      AppendAssoc(start, x0, x1);
      AppendAssoc(start, x0 + x1, x2);
      AppendAssoc(start, x0 + x1 + x2, x3);
    }

    /** The virtualization block of `generate_commands`. */
    method PushVirtCommands(start: string) returns (commands: string)
      requires |virtList| == 4
      ensures commands == start + Pushes(virtList, VirtTexts())
    {
      var t := VirtTexts();
      var x0 := if virtList[0].selected then t[0] else "";
      var x1 := if virtList[1].selected then t[1] else "";
      var x2 := if virtList[2].selected then t[2] else "";
      var x3 := if virtList[3].selected then t[3] else "";
      commands := start;
      if virtList[0].selected {
        commands := commands + KvmCommands();
      }
      assert commands == start + x0;
      if virtList[1].selected {
        commands := commands + CockpitCommands();
      }
      assert commands == start + x0 + x1;
      if virtList[2].selected {
        commands := commands + VirtManagerCommand();
      }
      assert commands == start + x0 + x1 + x2;
      if virtList[3].selected {
        commands := commands + GuestToolsCommand();
      }
      assert commands == start + x0 + x1 + x2 + x3;
      PushesOfFour(virtList, t);
      AppendAssoc(start, x0, x1);
      AppendAssoc(start, x0 + x1, x2);
      AppendAssoc(start, x0 + x1 + x2, x3);
    }

    /** The desktop block of `generate_commands`. */
    method PushDesktopCommands(start: string) returns (commands: string)
      requires |desktopList| == 2
      ensures commands == start + Pushes(desktopList, DesktopTexts())
    {
      var t := DesktopTexts();
      var x0 := if desktopList[0].selected then t[0] else "";
      var x1 := if desktopList[1].selected then t[1] else "";
      commands := start;
      if desktopList[0].selected {
        commands := commands + MinimalGnomeCommands();
      }
      assert commands == start + x0;
      if desktopList[1].selected {
        commands := commands + WorkstationCommands();
      }
      assert commands == start + x0 + x1;
      PushesOfTwo(desktopList, t);
      AppendAssoc(start, x0, x1);
    }

    /** The state change of one key event, and the global key that ends the loop, if it is one. */
    method KeyAction(key: KeyCode) returns (action: Option<GlobalAction>)
      requires Valid()
      modifies this
      ensures Valid()
      ensures var r := Step(osDistro, old(Snapshot()), key); Snapshot() == r.0 && action == r.1
    {
      match key {
        case Char(c) =>
          if c == 'q' {
            return Some(QuitKey);
          } else if c == 'i' {
            return Some(InstallKey(false));
          } else if c == 'r' {
            return Some(InstallKey(true));
          }
        case _ =>
      }
      action := None;
      assert GlobalKey(key) == None;
      PanelKeys(osDistro, Snapshot(), key);
      PanelKeyPressed(key);
    }

    /** The second match of the loop body: the key goes to the panel with the focus. */
    method PanelKeyPressed(key: KeyCode)
      requires Valid()
      modifies this
      ensures Valid()
      ensures Snapshot() == PanelKey(osDistro, old(Snapshot()), key)
    {
      match activePanel {
        case Menu =>
          match key {
            case Down => menuIndex := (menuIndex + 1) % 3;
            case Up => menuIndex := (menuIndex + 3 - 1) % 3;
            case Enter => Open();
            case Right => Open();
            case Tab => Open();
            case _ =>
          }
        case Content =>
          ContentKeyPressed(key);
      }
    }

    /** What `run_app` returns for the key that ended it: nothing for `q`, the generated commands for `i` and `r`. */
    method Finish(action: Option<GlobalAction>) returns (exit: Option<Exit>)
      requires Shaped(Snapshot())
      ensures exit == ExitOf(osDistro, Snapshot(), action)
    {
      if action.Some? {
        var e := ExitPressed(action.value);
        exit := Some(e);
        ExitOfSome(osDistro, Snapshot(), action.value);
      } else {
        exit := None;
      }
    }

    /** The exit for one of the global keys. */
    method ExitPressed(a: GlobalAction) returns (exit: Exit)
      requires Shaped(Snapshot())
      ensures exit == ExitFor(osDistro, Snapshot(), a)
    {
      match a {
        case QuitKey =>
          exit := Quit;
          ExitForQuit(osDistro, Snapshot());
        case InstallKey(reboot) =>
          exit := InstallPressed(reboot);
      }
    }

    /** `i` and `r`: the generated commands, to be printed. */
    method InstallPressed(reboot: bool) returns (exit: Exit)
      requires Shaped(Snapshot())
      ensures exit == ExitFor(osDistro, Snapshot(), InstallKey(reboot))
    {
      var commands := GenerateCommands(reboot);
      exit := Print(commands);
      ExitForInstall(osDistro, Snapshot(), reboot);
    }

    /** Enter/Right/Tab in the menu panel. */
    method Open()
      requires menuIndex < 3
      modifies this
      ensures Snapshot() == Opened(old(Snapshot()))
    {
      activePanel := Content;
      activeMenuItem := if menuIndex == 0 then Repos else if menuIndex == 1 then Virt else Desktop;
      selectedIndex := 0;
    }

    /** The content-panel arm of the key match. */
    method ContentKeyPressed(key: KeyCode)
      modifies this
      ensures Snapshot() == ContentKey(old(Snapshot()), key)
    {
      match key
      case Left => activePanel := Menu;
      case Tab => activePanel := Menu;
      case Up =>
        if selectedIndex > 0 {
          selectedIndex := selectedIndex - 1;
        }
      case Down =>
        var listLen := match activeMenuItem
          case Repos => |repoList|
          case Virt => |virtList|
          case Desktop => |desktopList|
          case Home => 0;
        if listLen > 0 && selectedIndex < listLen - 1 {
          selectedIndex := selectedIndex + 1;
        }
      case Enter => ToggleSelection();
      case Char(c) =>
        if c == ' ' {
          ToggleSelection();
        }
      case _ =>
    }

    /** `run_app` on a finite run of key events: the keys up to the first `q`, `i` or `r`, then what that key returns. */
    method RunApp(keys: seq<KeyCode>) returns (exit: Option<Exit>)
      requires Valid()
      modifies this
      ensures Valid()
      ensures var r := Run(osDistro, old(Snapshot()), keys);
        Snapshot() == r.0 && exit == ExitOf(osDistro, r.0, r.1)
    {
      var action := RunKeys(keys);
      exit := Finish(action);
    }

    /** The `run_app` loop: one key at a time until a global key ends it or the keys run out. */
    method RunKeys(keys: seq<KeyCode>) returns (action: Option<GlobalAction>)
      requires Valid()
      modifies this
      ensures Valid()
      ensures var r := Run(osDistro, old(Snapshot()), keys); Snapshot() == r.0 && action == r.1
    {
      ghost var whole := Run(osDistro, Snapshot(), keys);
      var k := 0;
      while k < |keys|
        invariant 0 <= k <= |keys| && Valid()
        invariant whole == Run(osDistro, Snapshot(), keys[k..])
        decreases |keys| - k
      {
        assert keys[k..][1..] == keys[k + 1..];
        action := KeyAction(keys[k]);
        if action.Some? {
          return;
        }
        k := k + 1;
      }
      action := None;
    }
  }
}
