/**
 * The `App` of src/main.rs as an object: the tree's `selected` flags live in an array that
 * Enter updates in place, the other fields are reassigned by the key handler and by drawing.
 * Every method is proved against the Session functions.
 */
module Tui {
  import opened Prelude
  import opened OsRelease
  import opened MenuTree
  import opened Scripts
  import opened Commands
  import opened Arena
  import opened Navigation
  import opened Session

  class App {
    /** The menu tree's arena: its shape never changes after `App::new`. */
    const slots: seq<Slot<ScriptFn>>
    const root: nat
    const osDistro: OsDistribution
    /** The `selected` field of every node, slot by slot (only Items' flags are ever read). */
    const selected: array<bool>

    var state: AppState
    var navPath: seq<nat>
    var selectedIndex: nat
    var rebootRequested: bool
    var filenameInput: string
    var saveStatusMessage: Option<string>

    function Cfg(): Config
    {
      Config(slots, root, osDistro)
    }

    /** The App's fields as a value. */
    function Snapshot(): Session
      reads this, selected
    {
      Session(state, navPath, selectedIndex, rebootRequested, filenameInput, saveStatusMessage, selected[..])
    }

    /** The arena is sound and has one flag per slot. */
    predicate ArenaValid()
      reads this, selected
    {
      ConfigValid(Cfg()) && selected.Length == |slots|
    }

    ghost predicate Valid()
      reads this, selected
    {
      ArenaValid() && Inv(Cfg(), Snapshot())
    }

    /** `App::new` for the tree `tree` detected for `os`: at the root, nothing typed, no message. */
    constructor FromTree(os: OsDistribution, tree: MenuNode<ScriptFn>)
      requires tree.Menu?
      ensures Valid() && fresh(selected)
      ensures osDistro == os && (slots, selected[..], root) == Build(tree)
      ensures Tree(Cfg(), selected[..]) == tree
      ensures Snapshot() == Initial(Cfg(), selected[..])
    {
      var arena := Build(tree);
      BuildDecodes(tree);
      var flags := arena.1;
      osDistro := os;
      slots := arena.0;
      root := arena.2;
      selected := new bool[|flags|](i requires 0 <= i < |flags| => flags[i]);
      state := Running;
      navPath := [arena.2];
      selectedIndex := 0;
      rebootRequested := false;
      filenameInput := "";
      saveStatusMessage := None;
      new;
      assert selected[..] == flags;
      RootPathValid(slots, root);
    }

    /** `App::new`, given what reading `/etc/os-release` returned: detect the OS, build its tree. */
    static method New(osRelease: Option<string>) returns (app: App)
      ensures fresh(app) && fresh(app.selected) && app.Valid()
      ensures app.osDistro == ParseOsRelease(osRelease)
      ensures (app.slots, app.selected[..], app.root) == Build(BuildMenuTree(app.osDistro))
      ensures Tree(app.Cfg(), app.selected[..]) == BuildMenuTree(app.osDistro)
      ensures app.Snapshot() == Initial(app.Cfg(), app.selected[..])
    {
      var os := DetectOs(osRelease);
      app := new App.FromTree(os, BuildMenuTree(os));
    }

    // -------------------------------------------------------------------------
    // Reading the tree
    // -------------------------------------------------------------------------

    /** `get_selected_scripts` from slot `i`, pushing onto `acc`. */
    method CollectSelectedScripts(i: nat, acc: seq<ScriptFn>) returns (r: seq<ScriptFn>)
      requires ArenaValid() && i < |slots|
      ensures r == acc + SelectedScripts(Decode(slots, selected[..], i))
      decreases i
    {
      var n := Decode(slots, selected[..], i);
      match slots[i]
      case Leaf(_, f) =>
        r := if selected[i] then acc + [f] else acc;
      case Branch(_, cs) =>
        r := acc;
        for k := 0 to |cs|
          invariant r == acc + SelectedScriptsOf(n.children[..k])
        {
          DecodeChild(slots, selected[..], i, k);
          r := CollectSelectedScripts(cs[k], r);
          assert n.children[..k + 1] == n.children[..k] + [n.children[k]];
          SelectedScriptsOfAppend(n.children[..k], [n.children[k]]);
          assert SelectedScriptsOf([n.children[k]]) == SelectedScripts(n.children[k]) by {
            assert [n.children[k]][1..] == [];
          }
        }
        assert n.children[..|cs|] == n.children;
    }

    /** `get_selected_item_names` from slot `i`, pushing onto `acc`. */
    method CollectSelectedNames(i: nat, acc: seq<string>) returns (r: seq<string>)
      requires ArenaValid() && i < |slots|
      ensures r == acc + SelectedNames(Decode(slots, selected[..], i))
      decreases i
    {
      var n := Decode(slots, selected[..], i);
      match slots[i]
      case Leaf(name, _) =>
        r := if selected[i] then acc + [name] else acc;
      case Branch(_, cs) =>
        r := acc;
        for k := 0 to |cs|
          invariant r == acc + SelectedNamesOf(n.children[..k])
        {
          DecodeChild(slots, selected[..], i, k);
          r := CollectSelectedNames(cs[k], r);
          assert n.children[..k + 1] == n.children[..k] + [n.children[k]];
          SelectedNamesOfAppend(n.children[..k], [n.children[k]]);
          assert SelectedNamesOf([n.children[k]]) == SelectedNames(n.children[k]) by {
            assert [n.children[k]][1..] == [];
          }
        }
        assert n.children[..|cs|] == n.children;
    }

    /** `generate_commands(reboot)`. */
    method GenerateCommands(reboot: bool) returns (text: string)
      requires ArenaValid()
      ensures text == ScriptOf(Cfg(), selected[..], reboot)
    {
      text := ShebangLine();
      text := text + OriginLine(osDistro);
      text := text + UsageLines();
      assert text == Header(osDistro);
      var scripts := CollectSelectedScripts(root, []);
      assert scripts == SelectedScripts(Tree(Cfg(), selected[..]));
      ghost var outputs := Outputs(scripts, Text);
      if scripts == [] {
        text := text + NoOptionsSelected();
      } else {
        text := PushOutputs(text, scripts, Text);
      }
      assert text == Header(osDistro) + Selection(outputs);
      if reboot {
        text := text + RebootNotice();
        text := text + RebootCommand();
      }
    }

    /** The loop of `generate_commands`: each script function's output, then a newline. */
    static method PushOutputs<F>(start: string, scripts: seq<F>, call: F -> string) returns (text: string)
      ensures text == start + Body(Outputs(scripts, call))
    {
      text := start;
      for k := 0 to |scripts|
        invariant text == start + Body(Outputs(scripts[..k], call))
      {
        text := text + call(scripts[k]);
        text := text + "\n";
        assert scripts[..k + 1] == scripts[..k] + [scripts[k]];
        OutputsSnoc(scripts[..k], scripts[k], call);
        BodySnoc(Outputs(scripts[..k], call), call(scripts[k]));
      }
      assert scripts[..|scripts|] == scripts;
    }

    /** `get_selected_items`. */
    method GetSelectedItems() returns (names: seq<string>)
      requires ArenaValid()
      ensures names == SelectedItemNames(Cfg(), Snapshot())
    {
      names := CollectSelectedNames(root, []);
    }

    /** `get_current_menu_view`: the last element of the path, always a Menu. */
    method GetCurrentMenuView() returns (current: nat)
      requires Valid()
      ensures current == navPath[|navPath| - 1]
      ensures current < |slots| && slots[current].Branch?
    {
      current := navPath[|navPath| - 1];
    }

    /** `visible_nodes`. */
    method VisibleNodes() returns (v: seq<nat>)
      requires Valid()
      ensures v == Visible(Cfg(), Snapshot())
    {
      var current := GetCurrentMenuView();
      v := [];
      var children := slots[current].children;
      if |navPath| == 1 {
        for k := 0 to |children|
          invariant v == RootExpansion(slots, children[..k])
        {
          var child := children[k];
          v := v + [child];
          if slots[child].Branch? {
            var sub := slots[child].children;
            for j := 0 to |sub|
              invariant v == RootExpansion(slots, children[..k]) + [child] + sub[..j]
            {
              v := v + [sub[j]];
              assert sub[..j + 1] == sub[..j] + [sub[j]];
            }
            assert sub[..|sub|] == sub;
          }
          assert children[..k + 1] == children[..k] + [child];
          RootExpansionSnoc(slots, children[..k], child);
        }
        assert children[..|children|] == children;
      } else {
        for k := 0 to |children|
          invariant v == children[..k]
        {
          v := v + [children[k]];
          assert children[..k + 1] == children[..k] + [children[k]];
        }
        assert children[..|children|] == children;
      }
    }

    // -------------------------------------------------------------------------
    // Handling keys
    // -------------------------------------------------------------------------

    /** `run_app`'s handling of one key press. */
    method HandleKey(key: KeyCode, wr: WriteResult) returns (exit: Option<ActionAfterExit>, write: Option<FileWrite>)
      requires Valid()
      modifies this, selected
      ensures Valid()
      ensures var o := Step(Cfg(), old(Snapshot()), key, wr, ScriptOf(Cfg(), old(selected[..]), old(rebootRequested)));
        Snapshot() == o.next && exit == o.exit && write == o.write
    {
      StepPreservesInv(Cfg(), Snapshot(), key, wr, ScriptOf(Cfg(), selected[..], rebootRequested));
      match state
      case Running =>
        exit, write := HandleRunning(key);
      case Finished =>
        exit, write := HandleFinished(key);
      case Saving =>
        exit, write := HandleSaving(key, wr);
    }

    /** A key on the main screen: clamp the index to the view, then act on the key. */
    method HandleRunning(key: KeyCode) returns (exit: Option<ActionAfterExit>, write: Option<FileWrite>)
      requires Valid() && state == Running
      modifies this, selected
      ensures var o := StepRunning(Cfg(), old(Snapshot()), key);
        Snapshot() == o.next && exit == o.exit && write == o.write
    {
      var visible := VisibleNodes();
      if |visible| > 0 {
        selectedIndex := if selectedIndex < |visible| - 1 then selectedIndex else |visible| - 1;
      } else {
        selectedIndex := 0;
      }
      exit, write := RunningKey(key, visible);
    }

    /** A key on the main screen, the index already clamped to the rows `visible` of the view. */
    method RunningKey(key: KeyCode, visible: seq<nat>) returns (exit: Option<ActionAfterExit>, write: Option<FileWrite>)
      requires ArenaValid() && IndicesIn(slots, visible)
      modifies this, selected
      ensures var o := KeyOnView(Cfg(), old(Snapshot()), visible, key);
        Snapshot() == o.next && exit == o.exit && write == o.write
    {
      exit, write := None, None;
      match key
      case Char(ch) =>
        if ch == 'q' {
          exit := Some(Quit);
        } else if ch == 'i' {
          state, rebootRequested := Finished, false;
        } else if ch == 'r' {
          state, rebootRequested := Finished, true;
        }
      case Down =>
        if |visible| > 0 {
          selectedIndex := (selectedIndex + 1) % |visible|;
        }
      case Up =>
        if |visible| > 0 {
          selectedIndex := (selectedIndex + |visible| - 1) % |visible|;
        }
      case Right => Activate(visible);
      case Enter => Activate(visible);
      case Left => Back();
      case Backspace => Back();
      case _ =>
    }

    /** Right/Enter on the highlighted row: enter a Menu, or flip an Item's flag in place. */
    method Activate(visible: seq<nat>)
      requires ArenaValid() && IndicesIn(slots, visible)
      modifies this, selected
      ensures Snapshot() == Activated(Cfg(), old(Snapshot()), visible)
    {
      if selectedIndex < |visible| {
        var x := visible[selectedIndex];
        if slots[x].Branch? {
          navPath := navPath + [x];
          selectedIndex := 0;
        } else {
          selected[x] := !selected[x];
        }
      }
    }

    /** Left/Backspace: pop the path unless at the root. */
    method Back()
      modifies this
      ensures Snapshot() == WentBack(old(Snapshot()))
    {
      if |navPath| > 1 {
        navPath := navPath[..|navPath| - 1];
        selectedIndex := 0;
      }
    }

    /** A key on the finished screen. */
    method HandleFinished(key: KeyCode) returns (exit: Option<ActionAfterExit>, write: Option<FileWrite>)
      requires ArenaValid()
      modifies this
      ensures var o := StepFinished(old(Snapshot()), key, ScriptOf(Cfg(), old(selected[..]), old(rebootRequested)));
        Snapshot() == o.next && exit == o.exit && write == o.write
    {
      exit, write := None, None;
      match key
      case Char(ch) =>
        if ch == 'q' {
          exit := Some(Quit);
        } else if ch == 's' {
          state := Saving;
        } else if ch == 'r' {
          var script := GenerateCommands(rebootRequested);
          exit := Some(RunScript(script));
        }
      case Esc => state := Running;
      case Backspace => state := Running;
      case _ =>
    }

    /** A key at the save prompt; `wr` is what `fs::write` returns if the file is written. */
    method HandleSaving(key: KeyCode, wr: WriteResult) returns (exit: Option<ActionAfterExit>, write: Option<FileWrite>)
      requires ArenaValid()
      modifies this
      ensures var o := StepSaving(old(Snapshot()), key, wr, ScriptOf(Cfg(), old(selected[..]), old(rebootRequested)));
        Snapshot() == o.next && exit == o.exit && write == o.write
    {
      exit, write := None, None;
      match key
      case Char(ch) =>
        filenameInput := filenameInput + [ch];
      case Backspace =>
        if filenameInput != [] {
          filenameInput := filenameInput[..|filenameInput| - 1];
        }
      case Esc =>
        state, filenameInput, saveStatusMessage := Finished, "", None;
      case Enter =>
        var script := GenerateCommands(rebootRequested);
        write := Some(FileWrite(filenameInput, script));
        if wr.Written? {
          saveStatusMessage := Some("Saved to " + filenameInput);
        } else {
          saveStatusMessage := Some("Error: " + wr.error);
        }
        state := Finished;
        filenameInput := "";
      case _ =>
    }

    /** What drawing a frame (`ui`) does to the fields. */
    method Draw()
      requires Valid()
      modifies this
      ensures Valid()
      ensures Snapshot() == Render(Cfg(), old(Snapshot()))
    {
      RenderPreservesInv(Cfg(), Snapshot());
      if state == Running {
        var visible := VisibleNodes();
        if |visible| > 0 {
          selectedIndex := if selectedIndex < |visible| - 1 then selectedIndex else |visible| - 1;
        } else {
          selectedIndex := 0;
        }
      } else if saveStatusMessage.Some? && filenameInput == [] {
        saveStatusMessage := None;
      }
    }

    /** One round of `run_app`'s loop: draw a frame, then handle the key read. */
    method Round(key: KeyCode, wr: WriteResult) returns (exit: Option<ActionAfterExit>, write: Option<FileWrite>)
      requires Valid()
      modifies this, selected
      ensures Valid()
      ensures var d := Render(Cfg(), old(Snapshot()));
        Inv(Cfg(), d) &&
        var o := Step(Cfg(), d, key, wr, ScriptOf(Cfg(), d.flags, d.rebootRequested));
        Snapshot() == o.next && exit == o.exit && write == o.write
    {
      RenderPreservesInv(Cfg(), Snapshot());
      Draw();
      ghost var drawn := Snapshot();
      assert drawn.flags == selected[..] && drawn.rebootRequested == rebootRequested;
      exit, write := HandleKey(key, wr);
    }

    /**
     * `run_app` over the key presses `keys`: draw, read a key, handle it, until a key returns.
     * `results[k]` is what `fs::write` returns should key `k` write the file.
     */
    method RunApp(keys: seq<KeyCode>, results: seq<WriteResult>) returns (exit: Option<ActionAfterExit>, writes: seq<FileWrite>)
      requires Valid() && |results| == |keys|
      modifies this, selected
      ensures Valid()
      ensures var r := Run(Cfg(), old(Snapshot()), keys, results);
        Snapshot() == r.last && exit == r.exit && writes == r.writes
    {
      ghost var whole := Run(Cfg(), Snapshot(), keys, results);
      exit, writes := None, [];
      var k := 0;
      while k < |keys|
        invariant 0 <= k <= |keys| && Valid()
        invariant var r := Run(Cfg(), Snapshot(), keys[k..], results[k..]);
          whole == RunResult(r.last, r.exit, writes + r.writes)
        decreases |keys| - k
      {
        assert keys[k..][1..] == keys[k + 1..] && results[k..][1..] == results[k + 1..];
        RunFirstRound(Cfg(), Snapshot(), keys[k..], results[k..]);
        var e, w := Round(keys[k], results[k]);
        var pushed := if w.Some? then [w.value] else [];
        ghost var done := writes;
        writes := writes + pushed;
        if e.Some? {
          exit := e;
          return;
        }
        ghost var rest := Run(Cfg(), Snapshot(), keys[k + 1..], results[k + 1..]);
        AppendAssoc(done, pushed, rest.writes);
        k := k + 1;
      }
    }
  }
}
