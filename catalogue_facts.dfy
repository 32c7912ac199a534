/**
 * Concrete facts about the catalogue `build_menu_tree` returns: the root's menus, the twelve
 * rows of the root view, the OS-dependent CRB label, the order of the repository Items and
 * what the collectors yield for a given selection. Each top-level sub-menu is examined in a
 * lemma of its own; the whole-tree facts are assembled from those.
 */
module CatalogueFacts {
  import opened OsRelease
  import opened MenuTree
  import opened Scripts

  // ---------------------------------------------------------------------------
  // Sub-menu by sub-menu: its root-view rows, and that nothing in it is selected
  // ---------------------------------------------------------------------------

  lemma GraphicalEnvironmentsFacts()
    ensures GraphicalEnvironments().Menu?
    ensures Names([GraphicalEnvironments()] + GraphicalEnvironments().children) ==
      ["Graphical Environments", "Gnome DE", "Sway WM"]
    ensures Unselected(GraphicalEnvironments())
  {
  }

  lemma RepositoriesFacts(crbLabel: string)
    ensures Repositories(crbLabel).Menu?
    ensures Names([Repositories(crbLabel)] + Repositories(crbLabel).children) ==
      ["Repositories", "Add Repositories"]
    ensures Unselected(Repositories(crbLabel))
  {
    assert Unselected(AddRepositories(crbLabel));
  }

  lemma VirtualizationFacts()
    ensures Virtualization().Menu?
    ensures Names([Virtualization()] + Virtualization().children) ==
      ["Virtualization", "KVM (Core & Tools)", "Cockpit"]
    ensures Unselected(Virtualization())
  {
  }

  lemma NetworkingFacts()
    ensures Networking().Menu?
    ensures Names([Networking()] + Networking().children) ==
      ["Networking", "NetworkManager", "KVM (libvirt networks)"]
    ensures Unselected(Networking())
  {
  }

  lemma HardeningFacts()
    ensures Hardening().Menu?
    ensures Names([Hardening()] + Hardening().children) == ["Hardening"]
    ensures Unselected(Hardening())
  {
  }

  /** The root's five children, as the sub-menu functions. */
  lemma TopLevel(os: OsDistribution)
    ensures BuildMenuTree(os).Menu? && BuildMenuTree(os).name == "Main Menu"
    ensures BuildMenuTree(os).children ==
      [GraphicalEnvironments()] + ([Repositories(CrbLabel(os))] + ([Virtualization()] + ([Networking()] + ([Hardening()] + []))))
  {
  }

  // ---------------------------------------------------------------------------
  // The whole catalogue
  // ---------------------------------------------------------------------------

  /** A freshly built tree has nothing selected: every Item is made by `item!`. */
  lemma FreshTreeHasNoSelection(os: OsDistribution)
    ensures Unselected(BuildMenuTree(os))
    ensures SelectedScripts(BuildMenuTree(os)) == []
    ensures SelectedNames(BuildMenuTree(os)) == []
  {
    TopLevel(os);
    GraphicalEnvironmentsFacts();
    RepositoriesFacts(CrbLabel(os));
    VirtualizationFacts();
    NetworkingFacts();
    HardeningFacts();
    UnselectedCollectsNothing(BuildMenuTree(os));
  }

  /** The root is "Main Menu" with five top-level menus, in this order. */
  lemma RootMenus(os: OsDistribution)
    ensures BuildMenuTree(os).Menu? && BuildMenuTree(os).name == "Main Menu"
    ensures Names(BuildMenuTree(os).children) ==
      ["Graphical Environments", "Repositories", "Virtualization", "Networking", "Hardening"]
    ensures forall k :: 0 <= k < |BuildMenuTree(os).children| ==> BuildMenuTree(os).children[k].Menu?
  {
    var cs := BuildMenuTree(os).children;
    TopLevel(os);
    NamesPointwise(cs);
    assert cs[0] == GraphicalEnvironments() && cs[1] == Repositories(CrbLabel(os)) && cs[2] == Virtualization();
    assert cs[3] == Networking() && cs[4] == Hardening();
  }

  /** The root-view names of five top-level Menus: each one's own rows, in turn. */
  lemma RootRowNamesOfFive(g: Node, r: Node, v: Node, n: Node, h: Node)
    requires g.Menu? && r.Menu? && v.Menu? && n.Menu? && h.Menu?
    ensures Names(RootRows([g] + ([r] + ([v] + ([n] + ([h] + [])))))) ==
      Names([g] + g.children) + Names([r] + r.children) + Names([v] + v.children) +
      Names([n] + n.children) + Names([h] + h.children)
  {
    RootRowNamesCons(g, [r] + ([v] + ([n] + ([h] + []))));
    RootRowNamesCons(r, [v] + ([n] + ([h] + [])));
    RootRowNamesCons(v, [n] + ([h] + []));
    RootRowNamesCons(n, [h] + []);
    RootRowNamesCons(h, []);
  }

  /** The root view of the catalogue: twelve rows, in this order. */
  lemma RootViewRows(os: OsDistribution)
    ensures Names(RootRows(BuildMenuTree(os).children)) == [
      "Graphical Environments", "Gnome DE", "Sway WM",
      "Repositories", "Add Repositories",
      "Virtualization", "KVM (Core & Tools)", "Cockpit",
      "Networking", "NetworkManager", "KVM (libvirt networks)",
      "Hardening"]
  {
    TopLevel(os);
    GraphicalEnvironmentsFacts();
    RepositoriesFacts(CrbLabel(os));
    VirtualizationFacts();
    NetworkingFacts();
    HardeningFacts();
    RootRowNamesOfFive(GraphicalEnvironments(), Repositories(CrbLabel(os)), Virtualization(), Networking(), Hardening());
    JoinFiveRuns("Graphical Environments", "Gnome DE", "Sway WM", "Repositories", "Add Repositories",
      "Virtualization", "KVM (Core & Tools)", "Cockpit", "Networking", "NetworkManager",
      "KVM (libvirt networks)", "Hardening");
  }

  /** Runs of three, two, three, three and one rows, joined. */
  lemma JoinFiveRuns<T>(a: T, b: T, c: T, d: T, e: T, f: T, g: T, h: T, i: T, j: T, k: T, l: T)
    ensures [a, b, c] + [d, e] + [f, g, h] + [i, j, k] + [l] == [a, b, c, d, e, f, g, h, i, j, k, l]
  {
  }

  /** The CRB item: its label is the only part that depends on the OS; its payload does not. */
  lemma CrbItem(os: OsDistribution)
    ensures BuildMenuTree(os).children[1].children[0] == AddRepositories(CrbLabel(os))
    ensures AddRepositories(CrbLabel(os)).children[1] == Item(CrbLabel(os), AddCrb, false)
    ensures CrbLabel(os) == "CodeReady Builder" <==> os == Rhel
    ensures CrbLabel(os) == "CRB" <==> os != Rhel
  {
  }

  /** "Add Repositories" lists its six Items in this order, with these payloads. */
  lemma AddRepositoriesOrder(crbLabel: string)
    ensures Names(AddRepositories(crbLabel).children) ==
      ["CEPH", crbLabel, "EPEL", "Flathub", "Real-Time (RT)", "High Availability (HA)"]
    ensures forall k | 0 <= k < 6 :: AddRepositories(crbLabel).children[k].Item?
    ensures AddRepositories(crbLabel).children[0].scriptFn == AddCeph
    ensures AddRepositories(crbLabel).children[1].scriptFn == AddCrb
    ensures AddRepositories(crbLabel).children[2].scriptFn == AddEpel
    ensures AddRepositories(crbLabel).children[3].scriptFn == AddFlathub
    ensures AddRepositories(crbLabel).children[4].scriptFn == AddRt
    ensures AddRepositories(crbLabel).children[5].scriptFn == AddHa
  {
    NamesPointwise(AddRepositories(crbLabel).children);
  }

  /** The sub-menus that have no children yet; entering one shows an empty view. */
  lemma EmptyMenus(os: OsDistribution)
    ensures GnomeDe().children[1].children[0].name == "Extensions"
    ensures Names(GnomeDe().children[1].children[0].children) ==
      ["Tiling WM", "Top Bar", "Desktop Functions", "Search"]
    ensures forall k | 0 <= k < 4 ::
      GnomeDe().children[1].children[0].children[k].Menu? &&
      GnomeDe().children[1].children[0].children[k].children == []
    ensures Networking().children[1] == Menu("KVM (libvirt networks)", [])
    ensures BuildMenuTree(os).children[4] == Menu("Hardening", [])
  {
  }

  /** No Item outside "Repositories" is named CRB, CodeReady Builder or EPEL. */
  lemma OtherMenusAvoidRepoNames()
    ensures NoItemNamedIn(GraphicalEnvironments(), {"CodeReady Builder", "CRB", "EPEL"})
    ensures NoItemNamedIn(Virtualization(), {"CodeReady Builder", "CRB", "EPEL"})
    ensures NoItemNamedIn(Networking(), {"CodeReady Builder", "CRB", "EPEL"})
    ensures NoItemNamedIn(Hardening(), {"CodeReady Builder", "CRB", "EPEL"})
  {
    GraphicalEnvironmentsAvoidRepoNames();
    VirtualizationAvoidsRepoNames();
    NetworkingAvoidsRepoNames();
  }

  lemma GraphicalEnvironmentsAvoidRepoNames()
    ensures NoItemNamedIn(GraphicalEnvironments(), {"CodeReady Builder", "CRB", "EPEL"})
  {
    var names := {"CodeReady Builder", "CRB", "EPEL"};
    assert NoItemNamedIn(GnomeDe().children[0], names);
    assert NoItemNamedIn(GnomeDe().children[1], names);
    assert NoItemNamedIn(GnomeDe(), names);
    assert "Wofi"[0] == 'W';
    assert NoItemNamedIn(SwayWm(), names);
  }

  lemma VirtualizationAvoidsRepoNames()
    ensures NoItemNamedIn(Virtualization(), {"CodeReady Builder", "CRB", "EPEL"})
  {
    var names := {"CodeReady Builder", "CRB", "EPEL"};
    assert NoItemNamedIn(Virtualization().children[1], names);
  }

  lemma NetworkingAvoidsRepoNames()
    ensures NoItemNamedIn(Networking(), {"CodeReady Builder", "CRB", "EPEL"})
  {
    var names := {"CodeReady Builder", "CRB", "EPEL"};
    assert "L2TP"[0] == 'L' && "PPTP"[0] == 'P';
    assert NoItemNamedIn(Networking().children[0], names);
  }

  /** The same, for the two names the CRB and EPEL scenario selects. */
  lemma OtherMenusAvoidCrbAndEpel(os: OsDistribution)
    ensures NoItemNamedIn(GraphicalEnvironments(), {CrbLabel(os), "EPEL"})
    ensures NoItemNamedIn(Virtualization(), {CrbLabel(os), "EPEL"})
    ensures NoItemNamedIn(Networking(), {CrbLabel(os), "EPEL"})
    ensures NoItemNamedIn(Hardening(), {CrbLabel(os), "EPEL"})
  {
    var all, names := {"CodeReady Builder", "CRB", "EPEL"}, {CrbLabel(os), "EPEL"};
    OtherMenusAvoidRepoNames();
    NoItemNamedInSubset(GraphicalEnvironments(), all, names);
    NoItemNamedInSubset(Virtualization(), all, names);
    NoItemNamedInSubset(Networking(), all, names);
    NoItemNamedInSubset(Hardening(), all, names);
  }

  /** The collectors over five selected-by-name top-level nodes: each one's scripts, in turn. */
  lemma SelectedScriptsOfFive(g: Node, r: Node, v: Node, n: Node, h: Node, names: set<string>)
    ensures SelectedScriptsOf(SelectNamedOf([g] + ([r] + ([v] + ([n] + ([h] + [])))), names)) ==
      SelectedScripts(SelectNamed(g, names)) + (SelectedScripts(SelectNamed(r, names)) +
      (SelectedScripts(SelectNamed(v, names)) + (SelectedScripts(SelectNamed(n, names)) +
      (SelectedScripts(SelectNamed(h, names)) + []))))
  {
    var t4 := [h] + [];
    var t3 := [n] + t4;
    var t2 := [v] + t3;
    var t1 := [r] + t2;
    SelectNamedOfCons(g, t1, names);
    SelectNamedOfCons(r, t2, names);
    SelectNamedOfCons(v, t3, names);
    SelectNamedOfCons(n, t4, names);
    SelectNamedOfCons(h, [], names);
    var sg, sr, sv, sn, sh := SelectNamed(g, names), SelectNamed(r, names), SelectNamed(v, names), SelectNamed(n, names), SelectNamed(h, names);
    var u4 := [sh] + [];
    var u3 := [sn] + u4;
    var u2 := [sv] + u3;
    var u1 := [sr] + u2;
    assert SelectNamedOf(t4, names) == u4;
    assert SelectNamedOf(t3, names) == u3;
    assert SelectNamedOf(t2, names) == u2;
    assert SelectNamedOf(t1, names) == u1;
    SelectedScriptsOfCons(sg, u1);
    SelectedScriptsOfCons(sr, u2);
    SelectedScriptsOfCons(sv, u3);
    SelectedScriptsOfCons(sn, u4);
    SelectedScriptsOfCons(sh, []);
  }

  lemma RepositoriesCrbAndEpelWithCrb()
    ensures SelectedScripts(SelectNamed(Repositories("CRB"), {"CRB", "EPEL"})) == [AddCrb, AddEpel]
  {
  }

  lemma RepositoriesCrbAndEpelWithCodeReady()
    ensures SelectedScripts(SelectNamed(Repositories("CodeReady Builder"), {"CodeReady Builder", "EPEL"})) ==
      [AddCrb, AddEpel]
  {
  }

  /** Selecting CRB (under either label) and EPEL in "Repositories" yields their two payloads, in order. */
  lemma RepositoriesCrbAndEpel(crbLabel: string)
    requires crbLabel == "CodeReady Builder" || crbLabel == "CRB"
    ensures SelectedScripts(SelectNamed(Repositories(crbLabel), {crbLabel, "EPEL"})) == [AddCrb, AddEpel]
  {
    if crbLabel == "CRB" {
      RepositoriesCrbAndEpelWithCrb();
    } else {
      RepositoriesCrbAndEpelWithCodeReady();
    }
  }

  /** With CRB and EPEL selected, the catalogue yields the CRB payload, then EPEL's, and nothing else. */
  lemma CrbBeforeEpel(os: OsDistribution)
    ensures SelectedScripts(SelectNamed(BuildMenuTree(os), {CrbLabel(os), "EPEL"})) == [AddCrb, AddEpel]
  {
    var names := {CrbLabel(os), "EPEL"};
    var g, r, v, n, h := GraphicalEnvironments(), Repositories(CrbLabel(os)), Virtualization(), Networking(), Hardening();
    TopLevel(os);
    OtherMenusCollectNothing(os);
    RepositoriesCrbAndEpel(CrbLabel(os));
    SelectedScriptsOfFive(g, r, v, n, h, names);
  }

  /** Outside "Repositories", selecting CRB and EPEL selects nothing. */
  lemma OtherMenusCollectNothing(os: OsDistribution)
    ensures SelectedScripts(SelectNamed(GraphicalEnvironments(), {CrbLabel(os), "EPEL"})) == []
    ensures SelectedScripts(SelectNamed(Virtualization(), {CrbLabel(os), "EPEL"})) == []
    ensures SelectedScripts(SelectNamed(Networking(), {CrbLabel(os), "EPEL"})) == []
    ensures SelectedScripts(SelectNamed(Hardening(), {CrbLabel(os), "EPEL"})) == []
  {
    var names := {CrbLabel(os), "EPEL"};
    var g, v, n, h := GraphicalEnvironments(), Virtualization(), Networking(), Hardening();
    OtherMenusAvoidCrbAndEpel(os);
    SelectNamedNoMatch(g, names); UnselectedCollectsNothing(SelectNamed(g, names));
    SelectNamedNoMatch(v, names); UnselectedCollectsNothing(SelectNamed(v, names));
    SelectNamedNoMatch(n, names); UnselectedCollectsNothing(SelectNamed(n, names));
    SelectNamedNoMatch(h, names); UnselectedCollectsNothing(SelectNamed(h, names));
  }
}
