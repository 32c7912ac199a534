/**
 * The recursive menu tree (`MenuNode` in src/main.rs) and the two depth-first collectors
 * over it, with an independent reference order (a pre-order listing of every node) that
 * both collectors are proved to follow.
 */
module MenuTree {

  /**
   * A selectable Item, carrying its script function `scriptFn` (of type `F`: Rust's
   * `fn() -> &'static str`), or a Menu of ordered children. `selected` is the only part that
   * ever changes.
   */
  datatype MenuNode<F> =
    | Item(name: string, scriptFn: F, selected: bool)
    | Menu(name: string, children: seq<MenuNode<F>>)

  // ---------------------------------------------------------------------------
  // The collectors, as values (`get_selected_scripts`, `get_selected_item_names`)
  // ---------------------------------------------------------------------------

  /** The script functions `get_selected_scripts` pushes for node `n`. */
  function SelectedScripts<F>(n: MenuNode<F>): seq<F>
    decreases n, 1
  {
    match n
    case Item(_, scriptFn, selected) => if selected then [scriptFn] else []
    case Menu(_, children) => SelectedScriptsOf(children)
  }

  /** The script functions pushed for a run of sibling nodes, left to right. */
  function SelectedScriptsOf<F>(ns: seq<MenuNode<F>>): seq<F>
    decreases ns, 0
  {
    if ns == [] then [] else SelectedScripts(ns[0]) + SelectedScriptsOf(ns[1..])
  }

  /** The names `get_selected_item_names` pushes for node `n`. */
  function SelectedNames<F>(n: MenuNode<F>): seq<string>
    decreases n, 1
  {
    match n
    case Item(name, _, selected) => if selected then [name] else []
    case Menu(_, children) => SelectedNamesOf(children)
  }

  function SelectedNamesOf<F>(ns: seq<MenuNode<F>>): seq<string>
    decreases ns, 0
  {
    if ns == [] then [] else SelectedNames(ns[0]) + SelectedNamesOf(ns[1..])
  }

  // ---------------------------------------------------------------------------
  // Reference order: every node in depth-first pre-order
  // ---------------------------------------------------------------------------

  /** Every node of the tree under `n`, each before its descendants, children in catalogue order. */
  function PreOrder<F>(n: MenuNode<F>): seq<MenuNode<F>>
    decreases n, 1
  {
    match n
    case Item(_, _, _) => [n]
    case Menu(_, children) => [n] + PreOrderOf(children)
  }

  function PreOrderOf<F>(ns: seq<MenuNode<F>>): seq<MenuNode<F>>
    decreases ns, 0
  {
    if ns == [] then [] else PreOrder(ns[0]) + PreOrderOf(ns[1..])
  }

  predicate IsSelectedItem<F>(n: MenuNode<F>)
  {
    n.Item? && n.selected
  }

  /** The selected Items among `ns`, in their order. */
  function SelectedItems<F>(ns: seq<MenuNode<F>>): (r: seq<MenuNode<F>>)
    ensures forall k :: 0 <= k < |r| ==> IsSelectedItem(r[k])
    ensures |r| <= |ns|
  {
    if ns == [] then []
    else (if IsSelectedItem(ns[0]) then [ns[0]] else []) + SelectedItems(ns[1..])
  }

  function Payloads<F>(items: seq<MenuNode<F>>): (r: seq<F>)
    requires forall k :: 0 <= k < |items| ==> items[k].Item?
    ensures |r| == |items|
    ensures forall k :: 0 <= k < |items| ==> r[k] == items[k].scriptFn
  {
    if items == [] then [] else [items[0].scriptFn] + Payloads(items[1..])
  }

  function Names<F>(ns: seq<MenuNode<F>>): (r: seq<string>)
    ensures |r| == |ns|
  {
    if ns == [] then [] else [ns[0].name] + Names(ns[1..])
  }

  /** Position k of `Names(ns)` is the name of `ns[k]`. */
  lemma {:induction false} NamesPointwise<F>(ns: seq<MenuNode<F>>)
    ensures forall k :: 0 <= k < |ns| ==> Names(ns)[k] == ns[k].name
  {
    if ns != [] {
      NamesPointwise(ns[1..]);
    }
  }

  lemma {:induction false} NamesAppend<F>(a: seq<MenuNode<F>>, b: seq<MenuNode<F>>)
    ensures Names(a + b) == Names(a) + Names(b)
  {
    if a == [] {
      assert a + b == b;
    } else {
      assert (a + b)[1..] == a[1..] + b;
      NamesAppend(a[1..], b);
    }
  }

  lemma {:induction false} SelectedItemsAppend<F>(a: seq<MenuNode<F>>, b: seq<MenuNode<F>>)
    ensures SelectedItems(a + b) == SelectedItems(a) + SelectedItems(b)
  {
    if a == [] {
      assert a + b == b;
    } else {
      assert (a + b)[1..] == a[1..] + b;
      SelectedItemsAppend(a[1..], b);
    }
  }

  lemma PayloadsAppend<F>(a: seq<MenuNode<F>>, b: seq<MenuNode<F>>)
    requires forall k :: 0 <= k < |a| ==> a[k].Item?
    requires forall k :: 0 <= k < |b| ==> b[k].Item?
    ensures Payloads(a + b) == Payloads(a) + Payloads(b)
  {
  }

  /**
   * `get_selected_scripts` emits exactly the script functions of the selected Items, in depth-first
   * pre-order; a Menu contributes nothing itself.
   */
  lemma {:induction false} SelectedScriptsInPreOrder<F>(n: MenuNode<F>)
    ensures SelectedScripts(n) == Payloads(SelectedItems(PreOrder(n)))
    decreases n, 1
  {
    match n
    case Item(_, _, _) =>
    case Menu(_, children) =>
      SelectedScriptsOfInPreOrder(children);
      SelectedItemsAppend([n], PreOrderOf(children));
  }

  lemma {:induction false} SelectedScriptsOfInPreOrder<F>(ns: seq<MenuNode<F>>)
    ensures SelectedScriptsOf(ns) == Payloads(SelectedItems(PreOrderOf(ns)))
    decreases ns, 0
  {
    if ns != [] {
      SelectedScriptsInPreOrder(ns[0]);
      SelectedScriptsOfInPreOrder(ns[1..]);
      SelectedItemsAppend(PreOrder(ns[0]), PreOrderOf(ns[1..]));
      PayloadsAppend(SelectedItems(PreOrder(ns[0])), SelectedItems(PreOrderOf(ns[1..])));
    }
  }

  /** `get_selected_item_names` emits exactly the names of the selected Items, in pre-order. */
  lemma {:induction false} SelectedNamesInPreOrder<F>(n: MenuNode<F>)
    ensures SelectedNames(n) == Names(SelectedItems(PreOrder(n)))
    decreases n, 1
  {
    match n
    case Item(_, _, _) =>
      assert SelectedItems(PreOrder(n)) == if n.selected then [n] else [] by {
        assert PreOrder(n) == [n];
        assert [n][1..] == [];
      }
      assert Names([n]) == [n.name] by {
        assert [n][1..] == [];
      }
      assert Names<F>([]) == [];
    case Menu(_, children) =>
      SelectedNamesOfInPreOrder(children);
      SelectedItemsAppend([n], PreOrderOf(children));
      assert SelectedItems([n]) == [] by {
        assert [n][1..] == [];
      }
      assert SelectedItems(PreOrder(n)) == SelectedItems(PreOrderOf(children));
  }

  lemma {:induction false} SelectedNamesOfInPreOrder<F>(ns: seq<MenuNode<F>>)
    ensures SelectedNamesOf(ns) == Names(SelectedItems(PreOrderOf(ns)))
    decreases ns, 0
  {
    if ns != [] {
      SelectedNamesInPreOrder(ns[0]);
      SelectedNamesOfInPreOrder(ns[1..]);
      SelectedItemsAppend(PreOrder(ns[0]), PreOrderOf(ns[1..]));
      NamesAppend(SelectedItems(PreOrder(ns[0])), SelectedItems(PreOrderOf(ns[1..])));
    }
  }

  /**
   * The two collectors agree: equal length, and position k of both lists comes from the same
   * selected Item.
   */
  lemma ScriptsAndNamesCorrespond<F>(n: MenuNode<F>)
    ensures |SelectedScripts(n)| == |SelectedNames(n)| == |SelectedItems(PreOrder(n))|
    ensures forall k :: 0 <= k < |SelectedScripts(n)| ==>
      var item := SelectedItems(PreOrder(n))[k];
      IsSelectedItem(item) && SelectedScripts(n)[k] == item.scriptFn && SelectedNames(n)[k] == item.name
  {
    SelectedScriptsInPreOrder(n);
    SelectedNamesInPreOrder(n);
    NamesPointwise(SelectedItems(PreOrder(n)));
  }

  /** With no Item selected anywhere, both collectors return nothing. */
  lemma NothingSelectedCollectsNothing<F>(n: MenuNode<F>)
    requires forall k :: 0 <= k < |PreOrder(n)| ==> !IsSelectedItem(PreOrder(n)[k])
    ensures SelectedScripts(n) == [] && SelectedNames(n) == []
  {
    NoSelectedItems(PreOrder(n));
    SelectedScriptsInPreOrder(n);
    SelectedNamesInPreOrder(n);
  }

  /** No Item anywhere under `n` is selected (stated child by child, without listing the tree). */
  predicate Unselected<F>(n: MenuNode<F>)
  {
    match n
    case Item(_, _, selected) => !selected
    case Menu(_, children) => forall k | 0 <= k < |children| :: Unselected(children[k])
  }

  /** An unselected tree contributes nothing to either collector, nor to its selected Items. */
  lemma {:induction false} UnselectedCollectsNothing<F>(n: MenuNode<F>)
    requires Unselected(n)
    ensures SelectedScripts(n) == [] && SelectedNames(n) == []
    ensures SelectedItems(PreOrder(n)) == []
    decreases n, 1
  {
    match n
    case Item(_, _, _) =>
    case Menu(_, children) => UnselectedOfCollectsNothing(children);
  }

  lemma {:induction false} UnselectedOfCollectsNothing<F>(ns: seq<MenuNode<F>>)
    requires forall k | 0 <= k < |ns| :: Unselected(ns[k])
    ensures SelectedScriptsOf(ns) == [] && SelectedNamesOf(ns) == []
    ensures SelectedItems(PreOrderOf(ns)) == []
    decreases ns, 0
  {
    if ns != [] {
      UnselectedCollectsNothing(ns[0]);
      UnselectedOfCollectsNothing(ns[1..]);
      SelectedItemsAppend(PreOrder(ns[0]), PreOrderOf(ns[1..]));
    }
  }

  lemma {:induction false} NoSelectedItems<F>(ns: seq<MenuNode<F>>)
    requires forall k :: 0 <= k < |ns| ==> !IsSelectedItem(ns[k])
    ensures SelectedItems(ns) == []
  {
    if ns != [] {
      NoSelectedItems(ns[1..]);
    }
  }

  /** The collectors distribute over a run of siblings split in two (used by the loops). */
  lemma {:induction false} SelectedScriptsOfAppend<F>(a: seq<MenuNode<F>>, b: seq<MenuNode<F>>)
    ensures SelectedScriptsOf(a + b) == SelectedScriptsOf(a) + SelectedScriptsOf(b)
  {
    if a == [] {
      assert a + b == b;
    } else {
      assert (a + b)[1..] == a[1..] + b;
      SelectedScriptsOfAppend(a[1..], b);
    }
  }

  lemma {:induction false} SelectedNamesOfAppend<F>(a: seq<MenuNode<F>>, b: seq<MenuNode<F>>)
    ensures SelectedNamesOf(a + b) == SelectedNamesOf(a) + SelectedNamesOf(b)
  {
    if a == [] {
      assert a + b == b;
    } else {
      assert (a + b)[1..] == a[1..] + b;
      SelectedNamesOfAppend(a[1..], b);
    }
  }

  // ---------------------------------------------------------------------------
  // The rows of the root view, on the tree
  // ---------------------------------------------------------------------------

  /** Each top-level node, followed (when it is a Menu) by its own children and nothing deeper. */
  function RootRows<F>(top: seq<MenuNode<F>>): seq<MenuNode<F>>
  {
    if top == [] then []
    else [top[0]] + (if top[0].Menu? then top[0].children else []) + RootRows(top[1..])
  }

  /** The root rows of a run of top-level nodes split in two are the two runs' rows, joined. */
  lemma {:induction false} RootRowsAppend<F>(a: seq<MenuNode<F>>, b: seq<MenuNode<F>>)
    ensures RootRows(a + b) == RootRows(a) + RootRows(b)
  {
    if a == [] {
      assert a + b == b;
    } else {
      assert (a + b)[1..] == a[1..] + b;
      RootRowsAppend(a[1..], b);
    }
  }

  lemma RootRowsCons<F>(a: MenuNode<F>, rest: seq<MenuNode<F>>)
    ensures RootRows([a] + rest) == [a] + (if a.Menu? then a.children else []) + RootRows(rest)
  {
    assert ([a] + rest)[1..] == rest;
  }

  /** The names of the root rows contributed by one top-level Menu, ahead of the rest. */
  lemma RootRowNamesCons<F>(a: MenuNode<F>, rest: seq<MenuNode<F>>)
    requires a.Menu?
    ensures Names(RootRows([a] + rest)) == Names([a] + a.children) + Names(RootRows(rest))
  {
    RootRowsCons(a, rest);
    NamesAppend([a] + a.children, RootRows(rest));
  }

  // ---------------------------------------------------------------------------
  // Selecting by name (used to state the catalogue's script scenarios)
  // ---------------------------------------------------------------------------

  /** The tree with exactly the Items whose name is in `names` selected. */
  function SelectNamed<F>(n: MenuNode<F>, names: set<string>): MenuNode<F>
    decreases n, 1
  {
    match n
    case Item(name, scriptFn, _) => Item(name, scriptFn, name in names)
    case Menu(name, children) => Menu(name, SelectNamedOf(children, names))
  }

  function SelectNamedOf<F>(ns: seq<MenuNode<F>>, names: set<string>): seq<MenuNode<F>>
    decreases ns, 0
  {
    if ns == [] then [] else [SelectNamed(ns[0], names)] + SelectNamedOf(ns[1..], names)
  }

  /** No Item under `n` carries one of `names`. */
  predicate NoItemNamedIn<F>(n: MenuNode<F>, names: set<string>)
  {
    match n
    case Item(name, _, _) => name !in names
    case Menu(_, children) => forall k | 0 <= k < |children| :: NoItemNamedIn(children[k], names)
  }

  /** Selecting names that occur nowhere under `n` leaves it unselected. */
  lemma {:induction false} SelectNamedNoMatch<F>(n: MenuNode<F>, names: set<string>)
    requires NoItemNamedIn(n, names)
    ensures Unselected(SelectNamed(n, names))
    decreases n, 1
  {
    match n
    case Item(_, _, _) =>
    case Menu(name, children) =>
      SelectNamedOfNoMatch(children, names);
  }

  lemma {:induction false} SelectNamedOfNoMatch<F>(ns: seq<MenuNode<F>>, names: set<string>)
    requires forall k | 0 <= k < |ns| :: NoItemNamedIn(ns[k], names)
    ensures |SelectNamedOf(ns, names)| == |ns|
    ensures forall k | 0 <= k < |ns| :: Unselected(SelectNamedOf(ns, names)[k])
    decreases ns, 0
  {
    if ns != [] {
      SelectNamedNoMatch(ns[0], names);
      SelectNamedOfNoMatch(ns[1..], names);
      var r := SelectNamedOf(ns, names);
      assert r == [SelectNamed(ns[0], names)] + SelectNamedOf(ns[1..], names);
      forall k | 0 <= k < |ns|
        ensures Unselected(r[k])
      {
        if k > 0 {
          assert r[k] == SelectNamedOf(ns[1..], names)[k - 1];
        }
      }
    }
  }

  lemma SelectedScriptsOfCons<F>(a: MenuNode<F>, rest: seq<MenuNode<F>>)
    ensures SelectedScriptsOf([a] + rest) == SelectedScripts(a) + SelectedScriptsOf(rest)
  {
    assert ([a] + rest)[1..] == rest;
  }

  lemma SelectNamedOfCons<F>(a: MenuNode<F>, rest: seq<MenuNode<F>>, names: set<string>)
    ensures SelectNamedOf([a] + rest, names) == [SelectNamed(a, names)] + SelectNamedOf(rest, names)
  {
    assert ([a] + rest)[1..] == rest;
  }

  /** Avoiding a set of names means avoiding any of its subsets. */
  lemma {:induction false} NoItemNamedInSubset<F>(n: MenuNode<F>, names: set<string>, fewer: set<string>)
    requires NoItemNamedIn(n, names) && fewer <= names
    ensures NoItemNamedIn(n, fewer)
    decreases n
  {
    match n
    case Item(_, _, _) =>
    case Menu(_, children) =>
      forall k | 0 <= k < |children|
        ensures NoItemNamedIn(children[k], fewer)
      {
        NoItemNamedInSubset(children[k], names, fewer);
      }
  }
}
