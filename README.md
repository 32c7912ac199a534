# RHEL/CentOS TUI Manager — a Dafny model

This project models the core of a terminal tool for RHEL and CentOS hosts. The user browses a
tree of menus of installation options and selects what to install. The tool then shows a
generated bash script, which the user can save to a file or run. The model is proved in
Dafny.

Two programs are modelled:

- **src/main.rs / src/scripts.rs**, the menu-tree application:
  - the `MenuNode` tree and its two depth-first collectors (`get_selected_scripts`,
    `get_selected_item_names`);
  - the catalogue `build_menu_tree` returns, including the CRB label that depends on the OS;
  - distribution detection from `/etc/os-release`;
  - `visible_nodes`, which shows the root flattened one level deep;
  - `generate_commands`;
  - the key handling of `run_app` in its three screens (`Running`, `Finished`, `Saving`);
  - the effect that drawing a frame has on the `App` fields.
- **rdct.rs**, the earlier prototype:
  - three fixed lists (repositories, virtualization, desktop) with per-entry flags;
  - `toggle_selection`, `get_active_list_mut`, `get_selected_items` and `generate_commands`;
  - the two-panel key handling of `run_app`.

Module layout:

- `Prelude`: `Option` and the key codes.
- `OsRelease`:
  - `detect_os`, with Rust's `str::lines`, `trim_start_matches` and `trim_matches` written out;
  - the `OsDistribution` type and its `Debug` spelling.
- `MenuTree`:
  - the recursive tree and the collectors, as values;
  - a pre-order listing of every node, used as an independent reference. Both collectors
    are proved to follow it.
- `Arena`:
  - the shared `Rc<RefCell<MenuNode>>` nodes, as slots in an arena;
  - allocation in the order the nested macro arguments are evaluated;
  - a proved round trip: decoding an allocated tree gives back the tree.
- `Scripts`: the script payloads, `item!`/`menu!` and `build_menu_tree`.
- `CatalogueFacts`: concrete facts about that tree.
- `Navigation`: the navigation path and the visible rows.
- `Commands`: the generated script text.
- `Session`: the `App` fields as a value, with one function per screen for a key press, a
  function for drawing, and the whole loop as `Run`.
- `Tui`: the `App` as a class. The `selected` flags are an array that Enter flips in place.
  Every method is proved against the `Session` functions.
- `Rdct`: the prototype, as functions and as a class.

Reading `/etc/os-release` is a parameter: its contents, or `None` when the read fails.
`fs::write` is an oracle parameter. The loop receives what each write returned, and it
reports each write it asks for as a path and contents. Key events are a finite sequence of
key codes.

## Model

| member | source | states |
|---|---|---|
| MenuTree.SelectedScripts | src/main.rs:33-46 | `get_selected_scripts`: an Item contributes its script function when selected; a Menu contributes its children's, left to right |
| MenuTree.SelectedScriptsOf | src/main.rs:40-44 | The loop over a Menu's children: each child's script functions, in order |
| MenuTree.SelectedNames | src/main.rs:49-62 | `get_selected_item_names`: an Item contributes its name when selected; a Menu contributes its children's, left to right |
| MenuTree.SelectedNamesOf | src/main.rs:56-60 | The loop over a Menu's children: each child's names, in order |
| MenuTree.RootRows | src/main.rs:176-188 | The rows of the root view: each top-level node, followed by its own children when it is a Menu |
| MenuTree.SelectedItems | src/main.rs:33-46 | Every node returned is a selected Item, and there are no more of them than inputs |
| MenuTree.Payloads | src/main.rs:33-46 | Position k holds the script function of item k |
| MenuTree.Names | src/main.rs:49-62 | One name per node, in order |
| MenuTree.NamesPointwise | src/main.rs:49-62 | Position k holds the name of node k |
| MenuTree.NamesAppend | src/main.rs:49-62 | Names distribute over concatenation |
| MenuTree.SelectedItemsAppend | src/main.rs:33-62 | Filtering for selected Items distributes over concatenation |
| MenuTree.PayloadsAppend | src/main.rs:33-46 | Payloads distribute over concatenation |
| MenuTree.SelectedScriptsInPreOrder | src/main.rs:33-46 | `get_selected_scripts` returns exactly the script functions of the selected Items, in pre-order (checked against the independent pre-order listing) |
| MenuTree.SelectedScriptsOfInPreOrder | src/main.rs:40-44 | The same for a run of siblings, which the loop visits left to right |
| MenuTree.SelectedNamesInPreOrder | src/main.rs:49-62 | `get_selected_item_names` returns exactly the names of the selected Items, in pre-order |
| MenuTree.SelectedNamesOfInPreOrder | src/main.rs:56-60 | The same for a run of siblings |
| MenuTree.ScriptsAndNamesCorrespond | src/main.rs:33-62 | Both collectors return the same number of entries, and entry k of each belongs to the same Item |
| MenuTree.NothingSelectedCollectsNothing | src/main.rs:33-62 | With no Item selected, both collectors return nothing |
| MenuTree.UnselectedCollectsNothing | src/main.rs:33-62 | An unselected subtree contributes nothing to either collector |
| MenuTree.UnselectedOfCollectsNothing | src/main.rs:40-44 | The same for a run of unselected siblings |
| MenuTree.NoSelectedItems | src/main.rs:35-39 | The filter keeps nothing when no node is a selected Item |
| MenuTree.SelectedScriptsOfAppend | src/main.rs:41-43 | The sibling loop over two runs is the two loops joined |
| MenuTree.SelectedNamesOfAppend | src/main.rs:57-59 | The same for names |
| MenuTree.RootRowsAppend | src/main.rs:176-188 | The flattened root view of two runs of top-level nodes is the two views joined |
| MenuTree.RootRowsCons | src/main.rs:178-187 | A top-level node contributes itself, then its children if it is a Menu |
| MenuTree.RootRowNamesCons | src/main.rs:178-187 | The names contributed by one top-level Menu come before the names of the rest |
| MenuTree.SelectNamedNoMatch | src/main.rs:33-46 | Selecting names that occur nowhere under a node leaves it unselected |
| MenuTree.SelectNamedOfNoMatch | src/main.rs:40-44 | The same for a run of siblings |
| MenuTree.SelectedScriptsOfCons | src/main.rs:41-43 | The first sibling's scripts come before the rest |
| MenuTree.SelectNamedOfCons | src/main.rs:41-43 | Selecting by name works sibling by sibling |
| MenuTree.NoItemNamedInSubset | src/main.rs:19-29 | Avoiding a set of names implies avoiding any subset of it |
| Scripts.Text | src/scripts.rs:99-171 | The constant text each script function returns |
| Scripts.MkItem | src/scripts.rs:7-15 | `item!`: an Item with the given name and script function, not selected |
| Scripts.MkMenu | src/scripts.rs:18-25 | `menu!`: a Menu with the given name and children, in order |
| Scripts.CrbLabel | src/scripts.rs:62 | "CodeReady Builder" on RHEL and "CRB" otherwise |
| Scripts.BuildMenuTree | src/scripts.rs:27-95 | `build_menu_tree`: "Main Menu" over the five sub-menus, with the CRB label for the OS |
| Scripts.GraphicalEnvironments | src/scripts.rs:29-56 | "Graphical Environments", over "Gnome DE" and "Sway WM" |
| Scripts.GnomeDe | src/scripts.rs:30-47 | "Gnome DE": the two installation Items and the empty "Extensions" placeholders |
| Scripts.SwayWm | src/scripts.rs:48-55 | "Sway WM": compile from source and Wofi |
| Scripts.Repositories | src/scripts.rs:57-68 | "Repositories", over "Add Repositories" |
| Scripts.AddRepositories | src/scripts.rs:60-67 | The six repository Items, with the given CRB label |
| Scripts.Virtualization | src/scripts.rs:69-75 | "Virtualization": KVM, then "Cockpit" with its two Items |
| Scripts.Networking | src/scripts.rs:76-90 | "Networking": the six VPN Items under "NetworkManager", and the empty libvirt-networks menu |
| Scripts.Hardening | src/scripts.rs:91-93 | "Hardening", with no children |
| Arena.Decode | src/main.rs:19-29 | Reading a slot back gives a node with that slot's name, kind, script function and flag |
| Arena.DecodeChild | src/main.rs:25-28 | Child k of a decoded Menu is the decoded k-th child slot, which sits at a smaller index |
| Arena.DecodeSeq | src/main.rs:27 | Decoding a run of indices decodes each one |
| Arena.DecodeExtends | src/scripts.rs:18-25 | Allocating more slots never changes what an existing slot decodes to |
| Arena.AllocNode | src/scripts.rs:7-25 | Allocating a tree keeps the arena well formed and extends it, and the new node lands in the last slot with the tree's name and kind |
| Arena.AllocSeq | src/scripts.rs:18-25 | Allocating the children left to right puts each one at a fresh index |
| Arena.Build | src/scripts.rs:27-95 | A whole tree's arena is well formed, and the root is the last slot |
| Arena.AllocNodeDecodes | src/scripts.rs:7-25 | Decoding the allocated node gives back the tree that was allocated |
| Arena.AllocSeqDecodes | src/scripts.rs:18-25 | Decoding each allocated child gives back that child |
| Arena.BuildDecodes | src/scripts.rs:27-95 | The round trip holds for a whole tree |
| Navigation.Children | src/main.rs:191-195 | A slot's children sit at smaller indices, and an Item has none |
| Navigation.ChildrenDecode | src/main.rs:191-195 | The decoded children are the decoded child slots |
| Navigation.RootExpansion | src/main.rs:176-188 | Every row of the flattened root view is a slot of the arena |
| Navigation.RootExpansionSnoc | src/main.rs:178-187 | One more top-level node appends itself and its children |
| Navigation.RootExpansionMembers | src/main.rs:176-188 | Every root row is a top-level node or a child of one |
| Navigation.RootExpansionDecodes | src/main.rs:176-188 | Decoding the root view gives the root rows of the decoded top-level nodes (the tree-level reference) |
| Navigation.DecodeSeqAppend | src/main.rs:174-198 | Decoding distributes over joined runs of indices |
| Navigation.View | src/main.rs:170-199 | Every row of `visible_nodes` is a slot of the arena |
| Navigation.ViewDecodes | src/main.rs:170-199 | Decoded, the view is the root rows at the root and the current Menu's children anywhere else |
| Navigation.RootPathValid | src/main.rs:117-120 | The path holding only the root is valid |
| Navigation.PushKeepsPathValid | src/main.rs:283-288 | Entering a Menu row of the current view keeps the path valid |
| Navigation.PopKeepsPathValid | src/main.rs:295-299 | Leaving a sub-menu keeps the path valid |
| Navigation.SecondIsChildOrGrandchild | src/main.rs:176-188 | The path element after the root is a child or a grandchild of the root, since the root view shows both |
| OsRelease.DebugName | src/main.rs:67-72 | The `Debug` spelling of each distribution |
| OsRelease.Lines | src/main.rs:101 | `str::lines`: split at each newline, drop a final empty piece and a carriage return before each newline |
| OsRelease.IsIdLine | src/main.rs:102 | The line starts with `ID=` |
| OsRelease.IdValue | src/main.rs:103 | `trim_start_matches("ID=")`, then `trim_matches('"')` |
| OsRelease.Classify | src/main.rs:104-108 | `rhel` and `centos` name their distribution, and any other value is `Unknown` |
| OsRelease.FirstIdLine | src/main.rs:101-112 | The value of the first `ID=` line, classified; `Unknown` when there is none |
| OsRelease.ParseOsRelease | src/main.rs:99-113 | `detect_os` on the file's contents, and `Unknown` when the file cannot be read |
| OsRelease.NewlineIndex | src/main.rs:101 | The first newline, or the end of the text when there is none |
| OsRelease.LinesCons | src/main.rs:101 | `lines()` cuts at the first newline and drops a trailing carriage return |
| OsRelease.LinesOfOneLine | src/main.rs:101 | Text without a newline is one line, or no line when it is empty |
| OsRelease.LinesEmptyIff | src/main.rs:101 | `lines()` yields nothing exactly for the empty text |
| OsRelease.LinesAfterTerminated | src/main.rs:101 | After a newline-terminated text, the following text starts a fresh line |
| OsRelease.LinesAfterFirstLine | src/main.rs:101 | The same, with the first line made explicit |
| OsRelease.LinesHaveNoNewline | src/main.rs:101 | No line that `lines()` yields contains a newline |
| OsRelease.TrimStartMatches | src/main.rs:103 | The result is a suffix of the input, and it no longer starts with the pattern |
| OsRelease.TrimStartMatchesRemovesCopies | src/main.rs:103 | What is removed is exactly a run of copies of the pattern |
| OsRelease.TrimStartChar | src/main.rs:103 | Drops exactly the leading quotes |
| OsRelease.TrimEndChar | src/main.rs:103 | Drops exactly the trailing quotes |
| OsRelease.TrimMatches | src/main.rs:103 | The result neither starts nor ends with the character |
| OsRelease.DetectOs | src/main.rs:99-113 | The scanning loop returns what the parse function gives for the file contents, `Unknown` when the file cannot be read |
| OsRelease.NoIdLineIsUnknown | src/main.rs:101-112 | With no `ID=` line the result is `Unknown` |
| OsRelease.FirstIdLineDecides | src/main.rs:101-109 | The first `ID=` line alone decides the result |
| OsRelease.ClassifyKnownValues | src/main.rs:104-108 | Only exactly `rhel` and `centos` give a known distribution |
| OsRelease.TrimStartMatchesRepeat | src/main.rs:103 | Every leading copy of `ID=` is removed, and nothing more |
| OsRelease.TrimMatchesQuoted | src/main.rs:103 | A quoted value loses exactly its pair of quotes |
| OsRelease.IdValueOfQuoted | src/main.rs:103 | `ID=` (repeated any number of times) followed by a quoted value gives back the value |
| OsRelease.IdValueOfBare | src/main.rs:103 | The same for an unquoted value |
| CatalogueFacts.GraphicalEnvironmentsFacts | src/scripts.rs:29-56 | The menu's own name and its children's names, with nothing selected |
| CatalogueFacts.RepositoriesFacts | src/scripts.rs:57-68 | The same for "Repositories" |
| CatalogueFacts.VirtualizationFacts | src/scripts.rs:69-75 | The same for "Virtualization" |
| CatalogueFacts.NetworkingFacts | src/scripts.rs:76-90 | The same for "Networking" |
| CatalogueFacts.HardeningFacts | src/scripts.rs:91-93 | "Hardening" has no children and nothing selected |
| CatalogueFacts.TopLevel | src/scripts.rs:27-95 | The root is "Main Menu", with the five sub-menus in order |
| CatalogueFacts.FreshTreeHasNoSelection | src/scripts.rs:7-15 | A freshly built tree has nothing selected, and both collectors return nothing |
| CatalogueFacts.RootMenus | src/scripts.rs:28-93 | The names of the five top-level menus, in order, and each one is a Menu |
| CatalogueFacts.RootRowNamesOfFive | src/main.rs:176-188 | The root-view names of five top-level Menus are each one's rows, in turn |
| CatalogueFacts.RootViewRows | src/main.rs:176-188 | The root view of the catalogue is exactly twelve named rows, in order |
| CatalogueFacts.CrbItem | src/scripts.rs:62 | The CRB Item is labelled "CodeReady Builder" exactly on RHEL and "CRB" otherwise, and its payload is the same either way |
| CatalogueFacts.AddRepositoriesOrder | src/scripts.rs:60-67 | The six repository Items, in order, with their script functions |
| CatalogueFacts.EmptyMenus | src/scripts.rs:36-93 | The menus that have no children: the four placeholders under "Extensions" (lines 36-45), "KVM (libvirt networks)" (lines 87-89) and "Hardening" (lines 91-93) |
| CatalogueFacts.OtherMenusAvoidRepoNames | src/scripts.rs:29-93 | No Item outside "Repositories" is named CRB, CodeReady Builder or EPEL |
| CatalogueFacts.GraphicalEnvironmentsAvoidRepoNames | src/scripts.rs:29-56 | The same for "Graphical Environments" alone |
| CatalogueFacts.VirtualizationAvoidsRepoNames | src/scripts.rs:69-75 | The same for "Virtualization" alone |
| CatalogueFacts.NetworkingAvoidsRepoNames | src/scripts.rs:76-90 | The same for "Networking" alone |
| CatalogueFacts.OtherMenusAvoidCrbAndEpel | src/scripts.rs:29-93 | The same for the OS's own CRB label |
| CatalogueFacts.SelectedScriptsOfFive | src/main.rs:40-44 | Over five top-level menus selected by name, the collector returns each one's scripts, in turn |
| CatalogueFacts.RepositoriesCrbAndEpelWithCrb | src/scripts.rs:57-68 | Selecting CRB and EPEL yields the CRB payload, then the EPEL payload |
| CatalogueFacts.RepositoriesCrbAndEpelWithCodeReady | src/scripts.rs:57-68 | The same under the RHEL label |
| CatalogueFacts.RepositoriesCrbAndEpel | src/scripts.rs:57-68 | The same for either label |
| CatalogueFacts.CrbBeforeEpel | src/main.rs:141-150 | On the whole catalogue, selecting CRB and EPEL yields exactly the CRB payload, then EPEL's |
| CatalogueFacts.OtherMenusCollectNothing | src/scripts.rs:29-93 | Outside "Repositories", that selection selects nothing |
| Commands.Header | src/main.rs:137-139 | The three header pushes: shebang, the OS in its `Debug` spelling, the usage line and a blank line |
| Commands.Body | src/main.rs:147-150 | Each payload followed by one newline, in order |
| Commands.Selection | src/main.rs:144-151 | The marker when nothing is selected, the body otherwise |
| Commands.Ending | src/main.rs:153-156 | The two reboot lines when a reboot is asked for, nothing otherwise |
| Commands.Script | src/main.rs:135-159 | `generate_commands`: header, then selection, then ending |
| Commands.Outputs | src/main.rs:147-150 | Calling each collected script function, in order |
| Commands.OutputsSnoc | src/main.rs:147-150 | One more function adds its output at the end |
| Commands.BodySnoc | src/main.rs:147-150 | Each payload is pushed followed by exactly one newline |
| Commands.BodyAppend | src/main.rs:147-150 | The body of a split run is the two bodies joined |
| Commands.ScriptStartsWithHeader | src/main.rs:135-159 | Every script starts with the header's three pushes |
| Commands.ScriptWithReboot | src/main.rs:153-156 | A reboot request appends the two reboot lines and changes nothing else |
| Commands.ScriptWithoutSelection | src/main.rs:144-145 | With nothing selected, the script is the header followed by the marker |
| Commands.ScriptWithSelection | src/main.rs:146-150 | With payloads selected, they follow the header in order, each ending in a newline, and there is no marker |
| Session.Inv | src/main.rs:88-97 | The state `run_app` sees: a valid path of Menus from the root, one flag per slot, and the index inside the view or 0 |
| Session.Tree | src/main.rs:90 | The tree the App holds, read back from the arena |
| Session.ScriptOf | src/main.rs:135-159 | `generate_commands` on the current flags: the script of the selected payloads, in collection order |
| Session.SelectedItemNames | src/main.rs:201-205 | `get_selected_items` on the current flags |
| Session.Visible | src/main.rs:170-199 | `visible_nodes` for the current path |
| Session.StepRunning | src/main.rs:254-303 | A key on the main screen: clamp the index to the view, then act on the key |
| Session.KeyOnView | src/main.rs:264-302 | The key match of the main screen: 'q', 'i', 'r', Down, Up, Right/Enter, Left/Backspace, and no effect otherwise |
| Session.Activated | src/main.rs:278-294 | Right/Enter: push a Menu row with the index at 0, or flip an Item row's flag; nothing on an empty view |
| Session.WentBack | src/main.rs:295-300 | Left/Backspace: pop the path and reset the index, unless at the root |
| Session.StepFinished | src/main.rs:304-310 | The finished screen's key match |
| Session.SaveMessage | src/main.rs:318-319 | "Saved to " and the name, or "Error: " and the error's text |
| Session.StepSaving | src/main.rs:311-325 | The save prompt's key match, with Enter writing the generated script to the typed name |
| Session.Step | src/main.rs:252-327 | One key press, dispatched on the screen |
| Session.Render | src/main.rs:331-343 | What drawing changes: the index clamp on the main screen (src/main.rs:452-457), and the dropped status message on the finished screen (src/main.rs:504-512) |
| Session.Initial | src/main.rs:117-132 | `App::new` starts at the root with nothing typed and no message, and the invariant holds |
| Session.Clamp | src/main.rs:256-262 | `index.min(len - 1)` for a non-empty view, 0 for an empty one |
| Session.Run | src/main.rs:248-329 | Every state the loop reaches keeps the invariant |
| Session.RenderPreservesInv | src/main.rs:331-343 | Drawing keeps the invariant, and on the main screen leaves the index inside a non-empty view |
| Session.StepRunningPreservesInv | src/main.rs:254-303 | Every key on the main screen keeps the invariant |
| Session.StepPreservesInv | src/main.rs:252-327 | Every key in every screen keeps the invariant |
| Session.StepElsewhereKeepsSelection | src/main.rs:304-325 | Outside the main screen, no key changes the selection, the path, the index or the reboot flag |
| Session.ClampIsIdentity | src/main.rs:256-262 | Under the invariant, the clamp changes nothing |
| Session.DownWraps | src/main.rs:268-272 | Down moves to the next row, wrapping from the last to the first; on an empty view it does nothing |
| Session.UpWraps | src/main.rs:273-277 | Up moves to the previous row, wrapping from the first to the last; on an empty view it does nothing |
| Session.NextModulo | src/main.rs:270 | The modular step forward wraps only at the last row |
| Session.PreviousModulo | src/main.rs:275 | The modular step back wraps only at the first row |
| Session.UpThenDownRestores | src/main.rs:268-277 | Up then Down restores the state |
| Session.EnterThenLeftRestoresPath | src/main.rs:278-300 | Entering a Menu pushes it with the index at 0, and Left pops it again |
| Session.LeftAtRootKeepsState | src/main.rs:295-300 | Left and Backspace at the root change nothing |
| Session.ToggleTwiceRestores | src/main.rs:289-291 | Enter on an Item flips exactly that slot's flag, and a second Enter restores the state |
| Session.PathHoldsMenus | src/main.rs:283-288 | Every element of a reachable path is a Menu; the first is the root, and the second is a child or grandchild of it |
| Session.RunningExits | src/main.rs:265-267 | 'q' quits; 'i' and 'r' go to the finished screen and record whether a reboot was asked for |
| Session.FinishedKeys | src/main.rs:304-310 | The finished screen: 'q' quits, 's' opens the prompt, 'r' returns the generated script, and Esc/Backspace go back |
| Session.SavingKeys | src/main.rs:311-314 | At the prompt, characters are appended, Backspace removes the last one and does nothing on an empty name, and Esc cancels and clears the name and the status |
| Session.SavingEnterWrites | src/main.rs:315-323 | Enter writes the script to the typed name, reports success or the error, and returns to the finished screen |
| Session.TypeThenDeleteRestores | src/main.rs:312-313 | Typing a character and then deleting it restores the prompt |
| Session.ExitKeys | src/main.rs:264-310 | The loop returns exactly on 'q' (main or finished screen) and on 'r' (finished screen) |
| Session.WriteKeys | src/main.rs:315-317 | A file is written exactly on Enter at the prompt |
| Session.RunFirstRound | src/main.rs:249-252 | One round draws, handles the first key, and then returns or goes on with the rest |
| Session.RunFinishedRun | src/main.rs:307 | 'r' on the finished screen ends the loop with the script generated from the selection at that moment |
| Session.RunSavingEnter | src/main.rs:315-323 | Enter at the prompt writes the script generated from the selection at that moment, and the loop goes on |
| Session.FreshSession | src/main.rs:117-132 | A fresh App shows the root rows of its tree, and when nothing is selected its script is the header followed by the marker |
| Tui.App.FromTree | src/main.rs:117-132 | The arena holds the tree, and decoding it gives the tree back; the fields are at their initial values |
| Tui.App.New | src/main.rs:117-132 | `App::new`: the OS is what the parse gives, the tree is that OS's catalogue, and the state is initial |
| Tui.App.CollectSelectedScripts | src/main.rs:33-46 | The recursive collector appends exactly the selected script functions under the slot |
| Tui.App.CollectSelectedNames | src/main.rs:49-62 | The recursive collector appends exactly the selected names under the slot |
| Tui.App.GenerateCommands | src/main.rs:135-159 | The text is the script for the current selection and reboot flag |
| Tui.App.PushOutputs | src/main.rs:147-150 | The loop appends each payload followed by a newline |
| Tui.App.GetSelectedItems | src/main.rs:201-205 | The names of the selected Items |
| Tui.App.GetCurrentMenuView | src/main.rs:161-163 | The last element of the path, always a Menu |
| Tui.App.VisibleNodes | src/main.rs:170-199 | The rows of the current view |
| Tui.App.HandleKey | src/main.rs:252-327 | The new fields, the exit and the write are those of `Session.Step` |
| Tui.App.HandleRunning | src/main.rs:254-303 | Clamps the index, then acts on the key as `Session.StepRunning` says |
| Tui.App.RunningKey | src/main.rs:264-302 | The key match once the index is clamped |
| Tui.App.Activate | src/main.rs:278-294 | Right/Enter: enter a Menu, or flip the Item's flag in the array |
| Tui.App.Back | src/main.rs:295-300 | Left/Backspace: pop the path unless it is at the root |
| Tui.App.HandleFinished | src/main.rs:304-310 | The finished screen, as `Session.StepFinished` says |
| Tui.App.HandleSaving | src/main.rs:311-325 | The save prompt, as `Session.StepSaving` says |
| Tui.App.Draw | src/main.rs:331-343 | Drawing clamps the index on the main screen and drops a shown status message once no name is typed |
| Tui.App.Round | src/main.rs:249-327 | One round of the loop: draw, then handle the key |
| Tui.App.RunApp | src/main.rs:248-329 | The loop's final state, exit and writes are those of `Session.Run` |
| Rdct.RepoEntries | rdct.rs:76-90 | Four repository entries on RHEL and CentOS, differing in the builder's label, and none otherwise |
| Rdct.VirtEntries | rdct.rs:95-100 | The four virtualization entries |
| Rdct.DesktopEntries | rdct.rs:101-104 | The two desktop entries |
| Rdct.Initial | rdct.rs:73-110 | `App::new`: Home, the menu panel focused, both indices at 0, nothing selected |
| Rdct.Inv | rdct.rs:41-50 | The lists have the lengths `generate_commands` indexes, and the repository list is empty exactly on an unknown distribution. The menu index is below 3, and the content index is 0 or inside the list |
| Rdct.ActiveList | rdct.rs:123-130 | `get_active_list_mut`: the list the active menu item names, with the repositories for Home |
| Rdct.WithActiveList | rdct.rs:116-118 | Writing back through the reference `get_active_list_mut` returns |
| Rdct.Toggled | rdct.rs:113-120 | `toggle_selection`: flip the highlighted entry of the active list, when there is one |
| Rdct.SelectedItems | rdct.rs:133-139 | `get_selected_items`: the selected names of the repositories, then virtualization, then desktop |
| Rdct.ScriptHeader | rdct.rs:144-146 | The three header pushes |
| Rdct.BuilderCommand | rdct.rs:155-159 | The builder command for each distribution |
| Rdct.RepoTexts | rdct.rs:148-169 | The commands of the four repository entries, by position |
| Rdct.VirtTexts | rdct.rs:172-187 | The commands of the four virtualization entries, by position |
| Rdct.DesktopTexts | rdct.rs:190-197 | The commands of the two desktop entries, by position |
| Rdct.Pushes | rdct.rs:148-197 | The command of each selected entry, in order |
| Rdct.SelectedCommands | rdct.rs:148-197 | The repository, virtualization and desktop pushes, in that order |
| Rdct.MarkIfShort | rdct.rs:199-201 | The marker is appended when the text has at most the given number of lines |
| Rdct.CommandsAsWritten | rdct.rs:142-209 | `generate_commands` as written, with the `<= 3` test |
| Rdct.Marked | rdct.rs:143-201 | The header and pushes, with the corrected `<= 4` test |
| Rdct.GeneratedCommands | rdct.rs:142-209 | `generate_commands` with the corrected test |
| Rdct.GlobalKey | rdct.rs:245-268 | 'q' quits, 'i' installs, 'r' installs and reboots, and any other key is none of these |
| Rdct.ExitFor | rdct.rs:245-268 | Nothing printed for 'q'; for 'i' and 'r', the corrected generator's text |
| Rdct.ExitOf | rdct.rs:245-268 | The exit for the key that ended the loop, if one did |
| Rdct.ItemAt | rdct.rs:280-285 | Menu rows 0, 1 and 2 open the repositories, virtualization and desktop lists |
| Rdct.MenuKey | rdct.rs:271-289 | The menu panel's key match |
| Rdct.Opened | rdct.rs:278-287 | Focus the content panel on the highlighted row's list, with the index at 0 |
| Rdct.ListLen | rdct.rs:298-303 | The length of the active list, and 0 on Home |
| Rdct.ContentKey | rdct.rs:290-310 | The content panel's key match |
| Rdct.SelectedNames | rdct.rs:135-137 | No more names than entries |
| Rdct.SelectedNamesMembers | rdct.rs:135-137 | A name is listed exactly when some selected entry carries it |
| Rdct.SelectedNamesEmptyIff | rdct.rs:135-137 | Nothing is listed exactly when no entry is selected |
| Rdct.InitialState | rdct.rs:73-110 | Four repository options exactly on RHEL and CentOS, four virtualization options, two desktop options, and nothing selected |
| Rdct.BuilderLabel | rdct.rs:76-90 | The builder entry's label depends on the distribution |
| Rdct.ToggleIsLocal | rdct.rs:113-130 | `toggle_selection` flips the highlighted entry of the active list (repositories on Home) and changes nothing else |
| Rdct.ToggleTwiceRestores | rdct.rs:113-120 | Toggling twice restores the state |
| Rdct.ToggledKeepsInv | rdct.rs:113-120 | Toggling keeps the list sizes and the invariant |
| Rdct.MenuKeyKeepsInv | rdct.rs:271-289 | The menu panel keeps the menu index below 3 |
| Rdct.ContentKeyKeepsInv | rdct.rs:290-310 | The content panel keeps the index at 0 or inside the list |
| Rdct.PanelKey | rdct.rs:270-311 | Any panel key keeps the invariant |
| Rdct.Step | rdct.rs:244-311 | One pass of the loop keeps the invariant |
| Rdct.Run | rdct.rs:240-314 | Every state the loop reaches keeps the invariant |
| Rdct.ShebangLineCount | rdct.rs:144 | The shebang is one terminated line |
| Rdct.OriginLineCount | rdct.rs:145 | The origin line is one terminated line |
| Rdct.UsageLineCount | rdct.rs:146 | The usage push is two lines, because the blank line counts |
| Rdct.HeaderLineCount | rdct.rs:144-146 | The header alone is four lines under `str::lines` |
| Rdct.LinesAfterHeader | rdct.rs:199 | Each pushed line adds to the count, so the count is 4 exactly when nothing is pushed |
| Rdct.PushesEmptyIff | rdct.rs:148-197 | Nothing is pushed exactly when no entry is selected |
| Rdct.PushesOfFour | rdct.rs:148-187 | Four entries push their texts, each when selected, in order |
| Rdct.PushesOfTwo | rdct.rs:190-197 | Two entries push their texts, each when selected, in order |
| Rdct.RepoTextsNonEmpty | rdct.rs:150-167 | No repository command is empty |
| Rdct.BuilderCommandNonEmpty | rdct.rs:155-159 | No builder command is empty |
| Rdct.VirtTextsNonEmpty | rdct.rs:172-187 | No virtualization command is empty |
| Rdct.DesktopTextsNonEmpty | rdct.rs:190-197 | No desktop command is empty |
| Rdct.SelectedCommandsEmptyIff | rdct.rs:133-197 | Something is pushed after the header exactly when `get_selected_items` is non-empty |
| Rdct.JoinedPushesEmptyIff | rdct.rs:148-197 | The three blocks push nothing exactly when none of their entries is selected |
| Rdct.AsWrittenNeverMarks | rdct.rs:199-201 | As written, the marker is never appended, whatever is selected |
| Rdct.AsWrittenOmitsMarker | rdct.rs:199-201 | With nothing selected, the as-written script is the bare header |
| Rdct.GeneratedMarksExactlyWhenNothingSelected | rdct.rs:142-209 | With the corrected test, the marker appears exactly when nothing is selected, and otherwise the selections' commands follow the header |
| Rdct.MarkedExactlyWhenNothingSelected | rdct.rs:142-201 | The text before the reboot lines is the header followed by the marker or the selections' commands |
| Rdct.CorrectedAgainstAsWritten | rdct.rs:199-201 | The corrected and as-written texts are equal whenever something is selected; with nothing selected only the corrected one carries the marker |
| Rdct.GeneratedWithReboot | rdct.rs:203-206 | 'r' differs from 'i' only by the two reboot lines at the end |
| Rdct.NoRepoCommandsWhenUnknown | rdct.rs:148-169 | With the empty list of an unknown distribution, the builder's "SKIPPING" branch is never reached |
| Rdct.ExitOfSome | rdct.rs:245-268 | A key that ends the loop ends it with that key's exit |
| Rdct.ExitForQuit | rdct.rs:246 | 'q' ends the program without printing anything |
| Rdct.ExitForInstall | rdct.rs:247-266 | 'i' and 'r' print the commands generated for the state the key found |
| Rdct.ExitKeys | rdct.rs:245-268 | Exactly 'q', 'i' and 'r' end the program, from either panel, without changing the state |
| Rdct.PanelKeys | rdct.rs:267-311 | Every other key goes to the panel that has the focus and never ends the program |
| Rdct.MenuDownWraps | rdct.rs:272-274 | Down cycles through the three rows |
| Rdct.MenuUpWraps | rdct.rs:275-277 | Up cycles back through the three rows |
| Rdct.MenuDownThenUpRestores | rdct.rs:272-277 | Down then Up restores the state |
| Rdct.MenuOpens | rdct.rs:278-287 | Enter, Right and Tab open the highlighted list at its first entry |
| Rdct.ContentBack | rdct.rs:291 | Left and Tab give the focus back to the menu |
| Rdct.ContentUpSaturates | rdct.rs:292-296 | Up moves up one entry and stops at the first |
| Rdct.ContentDownBounded | rdct.rs:297-307 | Down moves down one entry and stops at the last, or stays at 0 in an empty list |
| Rdct.ContentToggles | rdct.rs:308 | Enter and space toggle the highlighted entry |
| Rdct.App.constructor | rdct.rs:73-110 | The OS is what the parse gives, and the fields are the initial state |
| Rdct.App.ToggleSelection | rdct.rs:113-130 | The new fields are those of `Toggled` |
| Rdct.App.GetSelectedItems | rdct.rs:133-139 | Repository names first, then virtualization, then desktop |
| Rdct.App.PushSelected | rdct.rs:135-137 | One filter-and-push pass appends the selected names of one list |
| Rdct.App.GenerateCommands | rdct.rs:142-209 | The corrected `generate_commands` |
| Rdct.App.PushSelectedCommands | rdct.rs:143-197 | The header, then every selected entry's commands, list by list |
| Rdct.App.MarkIfFewLines | rdct.rs:199-201 | The marker test with a given line limit |
| Rdct.App.PushEnding | rdct.rs:203-206 | The reboot lines, when asked for |
| Rdct.App.PushHeader | rdct.rs:143-146 | The three header pushes |
| Rdct.App.PushRepoCommands | rdct.rs:148-169 | The repository block, skipped when the list is empty |
| Rdct.App.PushVirtCommands | rdct.rs:171-187 | The virtualization block |
| Rdct.App.PushDesktopCommands | rdct.rs:189-197 | The desktop block |
| Rdct.App.KeyAction | rdct.rs:244-311 | One key event: the new fields and the key that ends the loop, as `Rdct.Step` says |
| Rdct.App.PanelKeyPressed | rdct.rs:270-311 | The panel match, as `Rdct.PanelKey` says |
| Rdct.App.Finish | rdct.rs:245-268 | Nothing for 'q', and the generated commands for 'i' and 'r' |
| Rdct.App.ExitPressed | rdct.rs:245-268 | The exit for one of the global keys |
| Rdct.App.InstallPressed | rdct.rs:247-266 | 'i' and 'r' return the commands, to be printed |
| Rdct.App.Open | rdct.rs:278-287 | Enter/Right/Tab in the menu panel |
| Rdct.App.ContentKeyPressed | rdct.rs:290-310 | The content-panel arm, as `Rdct.ContentKey` says |
| Rdct.App.RunApp | rdct.rs:240-314 | The keys up to the first 'q', 'i' or 'r', then what that key returns |
| Rdct.App.RunKeys | rdct.rs:241-313 | The loop: one key at a time, until a global key ends it or the keys run out |

## Left out

- Drawing (`ui`, `draw_main_ui`, `draw_finished_screen`, the popups and the previews) is not modelled as output. Only its effect on the `App` fields is modelled: the index clamp at src/main.rs:452-457 and the dropped status message at src/main.rs:504-512. In the model the clamp is taken over the rows of `visible_nodes`. rdct.rs's `ui` changes no field.
- Terminal setup, raw mode and the alternate screen are left out as I/O. Reading events becomes a finite sequence of key codes, and events other than key presses are left out.
- What `main` does after the loop returns is left out as process I/O: writing `/tmp/tui_install_script.sh`, setting its permissions, running it with `sudo` and printing. The model stops at the `ActionAfterExit` value, and for rdct.rs at the text to be printed.
- `fs::read_to_string("/etc/os-release")` becomes a parameter. `fs::write` becomes an oracle: the caller supplies the result of each write, and the loop reports the path and contents it writes. The error's `Display` text is a string in the oracle's result.
- `Rc<RefCell<MenuNode>>` sharing is replaced by an arena of slots with a flag array. Borrow-checking panics are not modelled.
- `usize` arithmetic is unbounded in the model. Its only additions are on view lengths and list indices, which are small.
- The longer literals of both `generate_commands` are written as joins of short pieces. The text is the same.
- Session.Step: takes the generated script as a parameter, because the step itself does not compute it. `Session.Run`, `Tui.App.HandleKey` and `Tui.App.Round` pass it the script generated from the current selection and reboot flag.
- Session.StepFinished: 's' on the finished screen only switches to the save prompt, as src/main.rs:306 does. It clears neither the name nor the status message. Likewise, 'q' at the save prompt is typed into the name (src/main.rs:312) rather than quitting.
- Rdct.App.GenerateCommands: implements the corrected marker test (see Findings). The text as written is `Rdct.CommandsAsWritten`.
- Rdct.ExitFor: for 'i' and 'r', returns the corrected generator's text, not the text as written. They differ only when nothing is selected, where the as-written text has no marker. `Rdct.CorrectedAgainstAsWritten` states both texts.
- Rdct.ExitForInstall: states the corrected text that `Rdct.ExitFor` prints, not the as-written one.
- Rdct.App.InstallPressed: returns the corrected text, as `Rdct.ExitFor` does.
- Rdct.App.ExitPressed: returns the corrected text for 'i' and 'r', as `Rdct.ExitFor` does.
- Rdct.App.Finish: returns the corrected text for 'i' and 'r', as `Rdct.ExitFor` does.
- Rdct.App.RunApp: its exit for 'i' and 'r' is the corrected text, as `Rdct.ExitFor` gives it. With nothing selected, the program as written prints the header without the marker.

## Findings

| source | as written | input that shows it | evidently intended | confidence | as-written member | corrected member |
|---|---|---|---|---|---|---|
| rdct.rs:199-201 | `if commands.lines().count() <= 3` appends "No options selected". The header pushed at rdct.rs:144-146 is already four lines, because the blank line after the usage line counts, so the test never holds | Nothing selected, as in the state `App::new` builds: the script is the bare header, without the marker | Test `<= 4` (a count equal to the header's), so the marker appears exactly when nothing is selected | not executed | Rdct.AsWrittenNeverMarks, Rdct.AsWrittenOmitsMarker | Rdct.GeneratedMarksExactlyWhenNothingSelected |
