/**
 * The state machine of src/main.rs: the `App` fields as a value, what one key press does in
 * each `AppState` (`run_app`), and what drawing a frame does to the state (`ui`). The App
 * class drives its fields with these functions as its specification.
 */
module Session {
  import opened Prelude
  import opened OsRelease
  import opened MenuTree
  import opened Scripts
  import opened Commands
  import opened Arena
  import opened Navigation

  /** `AppState`. */
  datatype AppState = Running | Finished | Saving

  /** `ActionAfterExit`: what `run_app` returns to `main`. */
  datatype ActionAfterExit = Quit | RunScript(script: string)

  /** A request to write `contents` to the file at `path` (`fs::write`). */
  datatype FileWrite = FileWrite(path: string, contents: string)

  /** What `fs::write` returned; its error is shown by its `Display` text. */
  datatype WriteResult = Written | WriteFailed(error: string)

  /** The parts of `App` that never change: the menu arena, its root slot and the OS. */
  datatype Config = Config(slots: seq<Slot<ScriptFn>>, root: nat, os: OsDistribution)

  predicate ConfigValid(cfg: Config)
  {
    WellFormed(cfg.slots) && cfg.root < |cfg.slots| && cfg.slots[cfg.root].Branch?
  }

  /** The changing fields of `App`, with the `selected` flag of every arena slot. */
  datatype Session = Session(
    state: AppState,
    navPath: seq<nat>,
    selectedIndex: nat,
    rebootRequested: bool,
    filenameInput: string,
    saveStatusMessage: Option<string>,
    flags: seq<bool>)

  /** What handling one key does: the next state, the exit action if the loop returns, and the file written. */
  datatype Outcome = Outcome(next: Session, exit: Option<ActionAfterExit>, write: Option<FileWrite>)

  function Continue(s: Session): Outcome
  {
    Outcome(s, None, None)
  }

  /**
   * What holds of every state `run_app` sees: a valid path over the right number of flags, and a
   * selected index inside the current view (or 0 when the view is empty).
   */
  ghost predicate Inv(cfg: Config, s: Session)
  {
    ConfigValid(cfg) && |s.flags| == |cfg.slots| && PathValid(cfg.slots, cfg.root, s.navPath) &&
    (s.selectedIndex == 0 || s.selectedIndex < |View(cfg.slots, s.navPath)|)
  }

  /** `App::new` after the tree is built: at the root, nothing typed, no message. */
  function Initial(cfg: Config, flags: seq<bool>): (s: Session)
    requires ConfigValid(cfg) && |flags| == |cfg.slots|
    ensures Inv(cfg, s)
  {
    RootPathValid(cfg.slots, cfg.root);
    Session(Running, [cfg.root], 0, false, "", None, flags)
  }

  /** The tree the App holds, read back from the arena. */
  function Tree(cfg: Config, flags: seq<bool>): MenuNode<ScriptFn>
    requires ConfigValid(cfg) && |flags| == |cfg.slots|
  {
    Decode(cfg.slots, flags, cfg.root)
  }

  /** `generate_commands(reboot)` on the selection `flags`. */
  function ScriptOf(cfg: Config, flags: seq<bool>, reboot: bool): string
    requires ConfigValid(cfg) && |flags| == |cfg.slots|
  {
    Script(cfg.os, Outputs(SelectedScripts(Tree(cfg, flags)), Text), reboot)
  }

  /** `get_selected_items` on the current selection. */
  function SelectedItemNames(cfg: Config, s: Session): seq<string>
    requires ConfigValid(cfg) && |s.flags| == |cfg.slots|
  {
    SelectedNames(Tree(cfg, s.flags))
  }

  /** `index.min(len - 1)`, or 0 for an empty view. */
  function Clamp(index: nat, len: nat): (r: nat)
    ensures len > 0 ==> r < len
    ensures len == 0 ==> r == 0
    ensures index < len ==> r == index
    ensures len > 0 && index >= len ==> r == len - 1
  {
    if len > 0 then (if index < len - 1 then index else len - 1) else 0
  }

  /** The rows of the current view. */
  function Visible(cfg: Config, s: Session): seq<nat>
    requires Inv(cfg, s)
  {
    View(cfg.slots, s.navPath)
  }

  // ---------------------------------------------------------------------------
  // One key press
  // ---------------------------------------------------------------------------

  /** A key in `Running`: the index is clamped to the view first, then the key acts. */
  function StepRunning(cfg: Config, s: Session, key: KeyCode): Outcome
    requires Inv(cfg, s) && s.state == Running
  {
    var v := Visible(cfg, s);
    KeyOnView(cfg, s.(selectedIndex := Clamp(s.selectedIndex, |v|)), v, key)
  }

  /** A key on the main screen once the index is clamped to the rows `v` of the current view. */
  function KeyOnView(cfg: Config, c: Session, v: seq<nat>, key: KeyCode): Outcome
    requires ConfigValid(cfg) && |c.flags| == |cfg.slots| && IndicesIn(cfg.slots, v)
  {
    var i := c.selectedIndex;
    match key
    case Char(ch) =>
      if ch == 'q' then Outcome(c, Some(Quit), None)
      else if ch == 'i' then Continue(c.(state := Finished, rebootRequested := false))
      else if ch == 'r' then Continue(c.(state := Finished, rebootRequested := true))
      else Continue(c)
    case Down =>
      Continue(if |v| > 0 then c.(selectedIndex := (i + 1) % |v|) else c)
    case Up =>
      Continue(if |v| > 0 then c.(selectedIndex := (i + |v| - 1) % |v|) else c)
    case Right => Continue(Activated(cfg, c, v))
    case Enter => Continue(Activated(cfg, c, v))
    case Left => Continue(WentBack(c))
    case Backspace => Continue(WentBack(c))
    case _ => Continue(c)
  }

  /** Right/Enter on row `selectedIndex`: enter a Menu (index back to 0), or toggle an Item. */
  function Activated(cfg: Config, s: Session, v: seq<nat>): Session
    requires ConfigValid(cfg) && |s.flags| == |cfg.slots| && IndicesIn(cfg.slots, v)
  {
    var i := s.selectedIndex;
    if i < |v| then
      if cfg.slots[v[i]].Branch? then s.(navPath := s.navPath + [v[i]], selectedIndex := 0)
      else s.(flags := s.flags[v[i] := !s.flags[v[i]]])
    else s
  }

  /** Left/Backspace: leave the current sub-menu (index back to 0); nothing at the root. */
  function WentBack(s: Session): Session
  {
    if |s.navPath| > 1 then s.(navPath := s.navPath[..|s.navPath| - 1], selectedIndex := 0) else s
  }

  /** A key on the finished screen; `script` is what `generate_commands(reboot_requested)` returns. */
  function StepFinished(s: Session, key: KeyCode, script: string): Outcome
  {
    match key
    case Char(ch) =>
      if ch == 'q' then Outcome(s, Some(Quit), None)
      else if ch == 's' then Continue(s.(state := Saving))
      else if ch == 'r' then Outcome(s, Some(RunScript(script)), None)
      else Continue(s)
    case Esc => Continue(s.(state := Running))
    case Backspace => Continue(s.(state := Running))
    case _ => Continue(s)
  }

  /** The status line after `fs::write(filename, script)` returned `wr`. */
  function SaveMessage(filename: string, wr: WriteResult): string
  {
    match wr
    case Written => "Saved to " + filename
    case WriteFailed(e) => "Error: " + e
  }

  /**
   * A key while the file name is typed; `wr` is what `fs::write` returns if Enter writes the
   * file, and `script` what `generate_commands(reboot_requested)` returns.
   */
  function StepSaving(s: Session, key: KeyCode, wr: WriteResult, script: string): Outcome
  {
    match key
    case Char(ch) => Continue(s.(filenameInput := s.filenameInput + [ch]))
    case Backspace =>
      Continue(if s.filenameInput == [] then s else s.(filenameInput := s.filenameInput[..|s.filenameInput| - 1]))
    case Esc => Continue(s.(state := Finished, filenameInput := "", saveStatusMessage := None))
    case Enter =>
      Outcome(
        s.(state := Finished, filenameInput := "", saveStatusMessage := Some(SaveMessage(s.filenameInput, wr))),
        None,
        Some(FileWrite(s.filenameInput, script)))
    case _ => Continue(s)
  }

  /**
   * What `run_app` does with one key press; `script` is what `generate_commands` returns for the
   * current selection and reboot choice, should the key ask for it.
   */
  function Step(cfg: Config, s: Session, key: KeyCode, wr: WriteResult, script: string): Outcome
    requires Inv(cfg, s)
  {
    match s.state
    case Running => StepRunning(cfg, s, key)
    case Finished => StepFinished(s, key, script)
    case Saving => StepSaving(s, key, wr, script)
  }

  /**
   * What drawing a frame changes: the main screen clamps the index to the rows it lists; the
   * finished screen (also under the save popup) drops a shown status message once no file name
   * is being typed.
   */
  function Render(cfg: Config, s: Session): Session
    requires Inv(cfg, s)
  {
    match s.state
    case Running => s.(selectedIndex := Clamp(s.selectedIndex, |Visible(cfg, s)|))
    case _ => if s.saveStatusMessage.Some? && s.filenameInput == [] then s.(saveStatusMessage := None) else s
  }

  /** The result of `run_app` on a sequence of key presses, each drawn for first. */
  datatype RunResult = RunResult(last: Session, exit: Option<ActionAfterExit>, writes: seq<FileWrite>)

  /**
   * `run_app` fed the keys `keys`; `results[k]` is what `fs::write` returns should key `k`
   * write the file. It stops at the first key that returns from the loop.
   */
  function Run(cfg: Config, s: Session, keys: seq<KeyCode>, results: seq<WriteResult>): (r: RunResult)
    requires Inv(cfg, s) && |results| == |keys|
    ensures Inv(cfg, r.last)
    decreases |keys|
  {
    if keys == [] then RunResult(s, None, [])
    else
      RenderPreservesInv(cfg, s);
      var d := Render(cfg, s);
      var o := Step(cfg, d, keys[0], results[0], ScriptOf(cfg, d.flags, d.rebootRequested));
      StepPreservesInv(cfg, d, keys[0], results[0], ScriptOf(cfg, d.flags, d.rebootRequested));
      var w := if o.write.Some? then [o.write.value] else [];
      if o.exit.Some? then RunResult(o.next, o.exit, w)
      else
        var rest := Run(cfg, o.next, keys[1..], results[1..]);
        RunResult(rest.last, rest.exit, w + rest.writes)
  }

  // ---------------------------------------------------------------------------
  // Invariants
  // ---------------------------------------------------------------------------

  /** Drawing keeps the invariant, and on the main screen leaves the index inside a non-empty view. */
  lemma RenderPreservesInv(cfg: Config, s: Session)
    requires Inv(cfg, s)
    ensures Inv(cfg, Render(cfg, s))
    ensures var r := Render(cfg, s); r.state == Running ==>
      (if |Visible(cfg, s)| > 0 then r.selectedIndex < |Visible(cfg, s)| else r.selectedIndex == 0)
  {
  }

  /** Every key press on the main screen keeps the invariant. */
  lemma StepRunningPreservesInv(cfg: Config, s: Session, key: KeyCode)
    requires Inv(cfg, s) && s.state == Running
    ensures Inv(cfg, StepRunning(cfg, s, key).next)
  {
    var v := Visible(cfg, s);
    var c := s.(selectedIndex := Clamp(s.selectedIndex, |v|));
    if (key == Right || key == Enter) && c.selectedIndex < |v| {
      if cfg.slots[v[c.selectedIndex]].Branch? {
        PushKeepsPathValid(cfg.slots, cfg.root, s.navPath, c.selectedIndex);
      }
    } else if (key == Left || key == Backspace) && |s.navPath| > 1 {
      PopKeepsPathValid(cfg.slots, cfg.root, s.navPath);
    }
  }

  /** Every key press keeps the invariant. */
  lemma StepPreservesInv(cfg: Config, s: Session, key: KeyCode, wr: WriteResult, script: string)
    requires Inv(cfg, s)
    ensures Inv(cfg, Step(cfg, s, key, wr, script).next)
  {
    if s.state == Running {
      StepRunningPreservesInv(cfg, s, key);
    } else {
      StepElsewhereKeepsSelection(cfg, s, key, wr, script);
    }
  }

  /** Outside the main screen a key changes nothing but the screen and the save prompt. */
  lemma StepElsewhereKeepsSelection(cfg: Config, s: Session, key: KeyCode, wr: WriteResult, script: string)
    requires Inv(cfg, s) && s.state != Running
    ensures var n := Step(cfg, s, key, wr, script).next;
      n.flags == s.flags && n.rebootRequested == s.rebootRequested &&
      n.navPath == s.navPath && n.selectedIndex == s.selectedIndex
  {
  }

  /** Under the invariant the clamp `run_app` applies first changes nothing. */
  lemma ClampIsIdentity(cfg: Config, s: Session)
    requires Inv(cfg, s)
    ensures Clamp(s.selectedIndex, |Visible(cfg, s)|) == s.selectedIndex
  {
  }

  // ---------------------------------------------------------------------------
  // Navigation keys
  // ---------------------------------------------------------------------------

  /**
   * Down moves to the next row and wraps from the last to the first; nothing else changes.
   * On an empty view it does nothing.
   */
  lemma DownWraps(cfg: Config, s: Session)
    requires Inv(cfg, s) && s.state == Running
    ensures |Visible(cfg, s)| == 0 ==> StepRunning(cfg, s, Down) == Continue(s)
    ensures |Visible(cfg, s)| > 0 ==>
      var o := StepRunning(cfg, s, Down);
      o.exit == None && o.write == None &&
      o.next == s.(selectedIndex := if s.selectedIndex == |Visible(cfg, s)| - 1 then 0 else s.selectedIndex + 1)
  {
    if |Visible(cfg, s)| > 0 {
      NextModulo(s.selectedIndex, |Visible(cfg, s)|);
    }
  }

  /**
   * Up moves to the previous row and wraps from the first to the last; nothing else changes.
   * On an empty view it does nothing.
   */
  lemma UpWraps(cfg: Config, s: Session)
    requires Inv(cfg, s) && s.state == Running
    ensures |Visible(cfg, s)| == 0 ==> StepRunning(cfg, s, Up) == Continue(s)
    ensures |Visible(cfg, s)| > 0 ==>
      var o := StepRunning(cfg, s, Up);
      o.exit == None && o.write == None &&
      o.next == s.(selectedIndex := if s.selectedIndex == 0 then |Visible(cfg, s)| - 1 else s.selectedIndex - 1)
  {
    if |Visible(cfg, s)| > 0 {
      PreviousModulo(s.selectedIndex, |Visible(cfg, s)|);
    }
  }

  lemma NextModulo(i: nat, n: nat)
    requires i < n
    ensures (i + 1) % n == if i == n - 1 then 0 else i + 1
  {
  }

  lemma PreviousModulo(i: nat, n: nat)
    requires i < n
    ensures (i + n - 1) % n == if i == 0 then n - 1 else i - 1
  {
    if i > 0 {
      assert i + n - 1 == (i - 1) + n;
    }
  }

  /** Up then Down comes back to the same state. */
  lemma UpThenDownRestores(cfg: Config, s: Session, wr: WriteResult, script: string)
    requires Inv(cfg, s) && s.state == Running
    ensures var s1 := Step(cfg, s, Up, wr, script).next;
      Inv(cfg, s1) && Step(cfg, s1, Down, wr, script).next == s
  {
    StepPreservesInv(cfg, s, Up, wr, script);
    var s1 := Step(cfg, s, Up, wr, script).next;
    assert s1.navPath == s.navPath;
    if |Visible(cfg, s)| > 0 {
      UpWraps(cfg, s);
      DownWraps(cfg, s1);
    }
  }

  /** Entering a Menu row pushes it on the path with the index at 0; Left pops it again. */
  lemma EnterThenLeftRestoresPath(cfg: Config, s: Session, wr: WriteResult, script: string)
    requires Inv(cfg, s) && s.state == Running
    requires s.selectedIndex < |Visible(cfg, s)|
    requires cfg.slots[Visible(cfg, s)[s.selectedIndex]].Branch?
    ensures var s1 := Step(cfg, s, Enter, wr, script).next;
      s1 == s.(navPath := s.navPath + [Visible(cfg, s)[s.selectedIndex]], selectedIndex := 0) &&
      Inv(cfg, s1) &&
      Step(cfg, s1, Left, wr, script).next == s.(selectedIndex := 0)
  {
    StepPreservesInv(cfg, s, Enter, wr, script);
    var s1 := Step(cfg, s, Enter, wr, script).next;
    assert s1.navPath[..|s1.navPath| - 1] == s.navPath;
  }

  /** Left (and Backspace) at the root change nothing. */
  lemma LeftAtRootKeepsState(cfg: Config, s: Session, key: KeyCode, wr: WriteResult, script: string)
    requires Inv(cfg, s) && s.state == Running && |s.navPath| == 1
    requires key == Left || key == Backspace
    ensures Step(cfg, s, key, wr, script) == Continue(s)
  {
  }

  /** Enter on an Item flips that slot's flag and nothing else; doing it again restores the state. */
  lemma ToggleTwiceRestores(cfg: Config, s: Session, wr: WriteResult, script: string)
    requires Inv(cfg, s) && s.state == Running
    requires s.selectedIndex < |Visible(cfg, s)|
    requires cfg.slots[Visible(cfg, s)[s.selectedIndex]].Leaf?
    ensures var x := Visible(cfg, s)[s.selectedIndex];
      var s1 := Step(cfg, s, Enter, wr, script).next;
      s1 == s.(flags := s.flags[x := !s.flags[x]]) &&
      (forall y :: 0 <= y < |s.flags| && y != x ==> s1.flags[y] == s.flags[y]) &&
      Inv(cfg, s1) && Step(cfg, s1, Enter, wr, script).next == s
  {
    var x := Visible(cfg, s)[s.selectedIndex];
    StepPreservesInv(cfg, s, Enter, wr, script);
    var s1 := Step(cfg, s, Enter, wr, script).next;
    assert s1.flags[x := !s1.flags[x]] == s.flags;
  }

  /** Only Menu rows are ever pushed: every element of a reachable path is a Menu. */
  lemma PathHoldsMenus(cfg: Config, s: Session)
    requires Inv(cfg, s)
    ensures |s.navPath| >= 1 && s.navPath[0] == cfg.root
    ensures forall k :: 0 <= k < |s.navPath| ==> cfg.slots[s.navPath[k]].Branch?
    ensures |s.navPath| >= 2 ==> TopOrChild(cfg.slots, Children(cfg.slots, cfg.root), s.navPath[1])
  {
    if |s.navPath| >= 2 {
      SecondIsChildOrGrandchild(cfg.slots, cfg.root, s.navPath);
    }
  }

  // ---------------------------------------------------------------------------
  // The three screens
  // ---------------------------------------------------------------------------

  /** 'i' and 'r' finish, remembering whether a reboot was asked for; 'q' quits. */
  lemma RunningExits(cfg: Config, s: Session, wr: WriteResult, script: string)
    requires Inv(cfg, s) && s.state == Running
    ensures Step(cfg, s, Char('q'), wr, script) == Outcome(s, Some(Quit), None)
    ensures Step(cfg, s, Char('i'), wr, script) == Continue(s.(state := Finished, rebootRequested := false))
    ensures Step(cfg, s, Char('r'), wr, script) == Continue(s.(state := Finished, rebootRequested := true))
  {
  }

  /**
   * On the finished screen: 'q' quits, Esc and Backspace go back, 's' opens the save prompt
   * without clearing the typed name or the status message, and 'r' returns the script.
   */
  lemma FinishedKeys(s: Session, script: string)
    ensures StepFinished(s, Char('q'), script) == Outcome(s, Some(Quit), None)
    ensures StepFinished(s, Char('s'), script) == Continue(s.(state := Saving))
    ensures StepFinished(s, Char('r'), script) == Outcome(s, Some(RunScript(script)), None)
    ensures StepFinished(s, Esc, script) == Continue(s.(state := Running))
    ensures StepFinished(s, Backspace, script) == Continue(s.(state := Running))
  {
  }

  /**
   * While saving: every character, 'q' included, is typed into the name; Backspace deletes the
   * last one, and does nothing on an empty name; Esc cancels.
   */
  lemma SavingKeys(s: Session, ch: char, wr: WriteResult, script: string)
    ensures StepSaving(s, Char(ch), wr, script) == Continue(s.(filenameInput := s.filenameInput + [ch]))
    ensures s.filenameInput == [] ==> StepSaving(s, Backspace, wr, script) == Continue(s)
    ensures s.filenameInput != [] ==>
      StepSaving(s, Backspace, wr, script) == Continue(s.(filenameInput := s.filenameInput[..|s.filenameInput| - 1])) &&
      StepSaving(s, Backspace, wr, script).next.filenameInput + [s.filenameInput[|s.filenameInput| - 1]] == s.filenameInput
    ensures StepSaving(s, Esc, wr, script) == Continue(s.(state := Finished, filenameInput := "", saveStatusMessage := None))
  {
  }

  /** Enter at the save prompt writes the script to the typed name and reports the result. */
  lemma SavingEnterWrites(s: Session, wr: WriteResult, script: string)
    ensures var o := StepSaving(s, Enter, wr, script);
      o.write == Some(FileWrite(s.filenameInput, script)) && o.exit == None &&
      o.next.state == Finished && o.next.filenameInput == "" &&
      o.next.saveStatusMessage == Some(if wr.Written? then "Saved to " + s.filenameInput else "Error: " + wr.error)
  {
  }

  /** Typing a character and deleting it gives back the prompt as it was. */
  lemma TypeThenDeleteRestores(cfg: Config, s: Session, ch: char, wr: WriteResult, script: string)
    requires Inv(cfg, s) && s.state == Saving
    ensures var s1 := Step(cfg, s, Char(ch), wr, script).next;
      Inv(cfg, s1) && Step(cfg, s1, Backspace, wr, script).next == s
  {
    StepPreservesInv(cfg, s, Char(ch), wr, script);
    var s1 := Step(cfg, s, Char(ch), wr, script).next;
    assert s1.filenameInput[..|s1.filenameInput| - 1] == s.filenameInput;
  }

  /** The loop returns exactly on 'q' (main or finished screen) and 'r' (finished screen). */
  lemma ExitKeys(cfg: Config, s: Session, key: KeyCode, wr: WriteResult, script: string)
    requires Inv(cfg, s)
    ensures Step(cfg, s, key, wr, script).exit.Some? <==>
      (key == Char('q') && s.state != Saving) || (key == Char('r') && s.state == Finished)
  {
  }

  /** A file is written exactly when Enter is pressed at the save prompt. */
  lemma WriteKeys(cfg: Config, s: Session, key: KeyCode, wr: WriteResult, script: string)
    requires Inv(cfg, s)
    ensures Step(cfg, s, key, wr, script).write.Some? <==> (key == Enter && s.state == Saving)
  {
  }

  // ---------------------------------------------------------------------------
  // The loop
  // ---------------------------------------------------------------------------

  /** The first round of `run_app`: draw, handle the first key, and either return or go on with the rest. */
  lemma RunFirstRound(cfg: Config, s: Session, keys: seq<KeyCode>, results: seq<WriteResult>)
    requires Inv(cfg, s) && |results| == |keys| && keys != []
    ensures var d := Render(cfg, s);
      Inv(cfg, d) &&
      var o := Step(cfg, d, keys[0], results[0], ScriptOf(cfg, d.flags, d.rebootRequested));
      var w := if o.write.Some? then [o.write.value] else [];
      Inv(cfg, o.next) &&
      Run(cfg, s, keys, results) ==
        if o.exit.Some? then RunResult(o.next, o.exit, w)
        else
          var rest := Run(cfg, o.next, keys[1..], results[1..]);
          RunResult(rest.last, rest.exit, w + rest.writes)
  {
    var d := Render(cfg, s);
    RenderPreservesInv(cfg, s);
    StepPreservesInv(cfg, d, keys[0], results[0], ScriptOf(cfg, d.flags, d.rebootRequested));
  }

  /** 'r' on the finished screen ends the loop with the script generated from the selection at that moment. */
  lemma RunFinishedRun(cfg: Config, s: Session, keys: seq<KeyCode>, results: seq<WriteResult>)
    requires Inv(cfg, s) && s.state == Finished && |results| == |keys|
    requires keys != [] && keys[0] == Char('r')
    ensures Run(cfg, s, keys, results) ==
      RunResult(Render(cfg, s), Some(RunScript(ScriptOf(cfg, s.flags, s.rebootRequested))), [])
  {
    var d := Render(cfg, s);
    assert d.flags == s.flags && d.rebootRequested == s.rebootRequested && d.state == Finished;
    FinishedKeys(d, ScriptOf(cfg, d.flags, d.rebootRequested));
  }

  /** Enter at the save prompt writes the script generated from the selection at that moment, and the loop goes on. */
  lemma RunSavingEnter(cfg: Config, s: Session, keys: seq<KeyCode>, results: seq<WriteResult>)
    requires Inv(cfg, s) && s.state == Saving && |results| == |keys|
    requires keys != [] && keys[0] == Enter
    ensures var n := StepSaving(Render(cfg, s), Enter, results[0], ScriptOf(cfg, s.flags, s.rebootRequested)).next;
      Inv(cfg, n) &&
      Run(cfg, s, keys, results) ==
        var rest := Run(cfg, n, keys[1..], results[1..]);
        RunResult(rest.last, rest.exit, [FileWrite(s.filenameInput, ScriptOf(cfg, s.flags, s.rebootRequested))] + rest.writes)
  {
    var d := Render(cfg, s);
    assert d.flags == s.flags && d.rebootRequested == s.rebootRequested && d.state == Saving;
    assert d.filenameInput == s.filenameInput;
    RenderPreservesInv(cfg, s);
    StepPreservesInv(cfg, d, Enter, results[0], ScriptOf(cfg, d.flags, d.rebootRequested));
    SavingEnterWrites(d, results[0], ScriptOf(cfg, d.flags, d.rebootRequested));
  }

  // ---------------------------------------------------------------------------
  // The fresh App
  // ---------------------------------------------------------------------------

  /**
   * A fresh App over the arena of tree `t`: it shows the root rows of `t`, and when nothing in
   * `t` is selected its script is the header and the "No options selected" marker.
   */
  lemma FreshSession(os: OsDistribution, t: MenuNode<ScriptFn>)
    requires t.Menu?
    ensures var (slots, flags, root) := Build(t);
      var cfg := Config(slots, root, os);
      ConfigValid(cfg) &&
      Tree(cfg, flags) == t &&
      DecodeSeq(slots, flags, Visible(cfg, Initial(cfg, flags))) == RootRows(t.children) &&
      (Unselected(t) ==> ScriptOf(cfg, flags, false) == Script(os, [], false))
  {
    var (slots, flags, root) := Build(t);
    BuildDecodes(t);
    var cfg := Config(slots, root, os);
    assert slots[root].Branch?;
    ViewDecodes(slots, flags, [root]);
    if Unselected(t) {
      UnselectedCollectsNothing(t);
    }
  }
}
