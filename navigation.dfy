/**
 * Where the user is in the menu tree: `nav_path` as a path of slot indices from the root, and
 * `visible_nodes`, the rows the current menu shows (src/main.rs). At the root the view is
 * flattened one level: each top-level node followed by its own children; inside a sub-menu
 * it is that menu's children.
 */
module Navigation {
  import opened MenuTree
  import opened Arena

  /** Every index names a slot of the arena. */
  predicate IndicesIn<F>(slots: seq<Slot<F>>, idxs: seq<nat>)
  {
    forall k :: 0 <= k < |idxs| ==> idxs[k] < |slots|
  }

  /** The children of slot `i`: none for an Item. */
  function Children<F>(slots: seq<Slot<F>>, i: nat): (cs: seq<nat>)
    requires WellFormed(slots) && i < |slots|
    ensures forall k :: 0 <= k < |cs| ==> cs[k] < i
    ensures slots[i].Leaf? ==> cs == []
  {
    if slots[i].Branch? then slots[i].children else []
  }

  /** The decoded children of a slot are the decoded child slots. */
  lemma ChildrenDecode<F>(slots: seq<Slot<F>>, flags: seq<bool>, i: nat)
    requires WellFormed(slots) && |flags| == |slots| && i < |slots| && slots[i].Branch?
    ensures DecodeSeq(slots, flags, Children(slots, i)) == Decode(slots, flags, i).children
  {
    var n := Decode(slots, flags, i);
    forall k | 0 <= k < |n.children|
      ensures DecodeSeq(slots, flags, Children(slots, i))[k] == n.children[k]
    {
      DecodeChild(slots, flags, i, k);
    }
  }

  /** `x` is one of the top-level nodes or a child of one. */
  ghost predicate TopOrChild<F>(slots: seq<Slot<F>>, top: seq<nat>, x: nat)
    requires WellFormed(slots) && IndicesIn(slots, top)
  {
    x in top || exists k :: 0 <= k < |top| && x in Children(slots, top[k])
  }

  /** The root view over the top-level slots `top`: each one, followed by its children. */
  function RootExpansion<F>(slots: seq<Slot<F>>, top: seq<nat>): (v: seq<nat>)
    requires WellFormed(slots) && IndicesIn(slots, top)
    ensures IndicesIn(slots, v)
  {
    if top == [] then []
    else [top[0]] + Children(slots, top[0]) + RootExpansion(slots, top[1..])
  }

  /** One more top-level slot adds it and its children at the end of the root view. */
  lemma {:induction false} RootExpansionSnoc<F>(slots: seq<Slot<F>>, top: seq<nat>, c: nat)
    requires WellFormed(slots) && IndicesIn(slots, top) && c < |slots|
    ensures IndicesIn(slots, top + [c])
    ensures RootExpansion(slots, top + [c]) == RootExpansion(slots, top) + [c] + Children(slots, c)
  {
    if top == [] {
      assert top + [c] == [c];
      assert [c][1..] == [];
    } else {
      var h, cs := [top[0]] + Children(slots, top[0]), Children(slots, c);
      assert (top + [c])[0] == top[0] && (top + [c])[1..] == top[1..] + [c];
      RootExpansionSnoc(slots, top[1..], c);
      var r := RootExpansion(slots, top[1..]);
      assert RootExpansion(slots, top + [c]) == h + (r + [c] + cs);
      assert h + (r + [c] + cs) == (h + r) + [c] + cs;
    }
  }

  /** Every row of the root view is a top-level node or a child of one. */
  lemma {:induction false} RootExpansionMembers<F>(slots: seq<Slot<F>>, top: seq<nat>)
    requires WellFormed(slots) && IndicesIn(slots, top)
    ensures forall j :: 0 <= j < |RootExpansion(slots, top)| ==> TopOrChild(slots, top, RootExpansion(slots, top)[j])
  {
    if top != [] {
      var v := RootExpansion(slots, top);
      var head := [top[0]] + Children(slots, top[0]);
      var rest := top[1..];
      RootExpansionMembers(slots, rest);
      forall j | 0 <= j < |v|
        ensures TopOrChild(slots, top, v[j])
      {
        if j == 0 {
          assert v[j] == top[0];
        } else if j < |head| {
          assert v[j] in Children(slots, top[0]);
        } else {
          var x := RootExpansion(slots, rest)[j - |head|];
          assert v[j] == x;
          assert TopOrChild(slots, rest, x);
          if x in rest {
            assert x in top;
          } else {
            var k :| 0 <= k < |rest| && x in Children(slots, rest[k]);
            assert rest[k] == top[k + 1];
          }
        }
      }
    }
  }

  /** Decoding the root view gives the root rows of the decoded top-level nodes. */
  lemma {:induction false} RootExpansionDecodes<F>(slots: seq<Slot<F>>, flags: seq<bool>, top: seq<nat>)
    requires WellFormed(slots) && |flags| == |slots| && IndicesIn(slots, top)
    ensures DecodeSeq(slots, flags, RootExpansion(slots, top)) == RootRows(DecodeSeq(slots, flags, top))
  {
    if top != [] {
      var t := DecodeSeq(slots, flags, top);
      var c := Children(slots, top[0]);
      RootExpansionDecodes(slots, flags, top[1..]);
      assert DecodeSeq(slots, flags, top[1..]) == t[1..];
      var d0 := DecodeSeq(slots, flags, [top[0]] + c);
      var expected := [t[0]] + (if t[0].Menu? then t[0].children else []);
      if slots[top[0]].Branch? {
        ChildrenDecode(slots, flags, top[0]);
        assert DecodeSeq(slots, flags, c) == t[0].children;
      }
      assert d0 == expected by {
        assert |d0| == |expected|;
        forall j | 0 <= j < |d0| ensures d0[j] == expected[j] {
          if j > 0 {
            assert d0[j] == DecodeSeq(slots, flags, c)[j - 1];
          }
        }
      }
      DecodeSeqAppend(slots, flags, [top[0]] + c, RootExpansion(slots, top[1..]));
      RootRowsCons(t[0], t[1..]);
      assert [t[0]] + t[1..] == t;
    }
  }

  /** Decoding distributes over a run of indices split in two. */
  lemma DecodeSeqAppend<F>(slots: seq<Slot<F>>, flags: seq<bool>, a: seq<nat>, b: seq<nat>)
    requires WellFormed(slots) && |flags| == |slots| && IndicesIn(slots, a) && IndicesIn(slots, b)
    ensures IndicesIn(slots, a + b)
    ensures DecodeSeq(slots, flags, a + b) == DecodeSeq(slots, flags, a) + DecodeSeq(slots, flags, b)
  {
    var l, r := DecodeSeq(slots, flags, a + b), DecodeSeq(slots, flags, a) + DecodeSeq(slots, flags, b);
    forall j | 0 <= j < |l| ensures l[j] == r[j] {
      if j < |a| {
        assert (a + b)[j] == a[j];
      } else {
        assert (a + b)[j] == b[j - |a|];
      }
    }
  }

  /** `visible_nodes`: the rows of the menu at the end of `path`. */
  function View<F>(slots: seq<Slot<F>>, path: seq<nat>): (v: seq<nat>)
    requires WellFormed(slots) && path != [] && IndicesIn(slots, path)
    ensures IndicesIn(slots, v)
  {
    var current := path[|path| - 1];
    if |path| == 1 then RootExpansion(slots, Children(slots, current))
    else Children(slots, current)
  }

  /** The view, decoded: the root rows at the root, the current menu's children elsewhere. */
  lemma ViewDecodes<F>(slots: seq<Slot<F>>, flags: seq<bool>, path: seq<nat>)
    requires WellFormed(slots) && |flags| == |slots| && path != [] && IndicesIn(slots, path)
    requires slots[path[|path| - 1]].Branch?
    ensures var current := Decode(slots, flags, path[|path| - 1]);
      DecodeSeq(slots, flags, View(slots, path)) ==
        if |path| == 1 then RootRows(current.children) else current.children
  {
    var i := path[|path| - 1];
    ChildrenDecode(slots, flags, i);
    if |path| == 1 {
      RootExpansionDecodes(slots, flags, Children(slots, i));
    }
  }

  // ---------------------------------------------------------------------------
  // nav_path
  // ---------------------------------------------------------------------------

  /**
   * What every reachable `nav_path` satisfies: it is never empty and starts at the root,
   * every element is a Menu, the element after the root is a row of the root view (a child or
   * grandchild of the root), and every later element is a child of the one before.
   */
  ghost predicate PathValid<F>(slots: seq<Slot<F>>, root: nat, path: seq<nat>)
    requires WellFormed(slots)
  {
    |path| >= 1 && path[0] == root && IndicesIn(slots, path) &&
    (forall k :: 0 <= k < |path| ==> slots[path[k]].Branch?) &&
    (|path| >= 2 ==> path[1] in RootExpansion(slots, Children(slots, root))) &&
    (forall k :: 1 <= k < |path| - 1 ==> path[k + 1] in Children(slots, path[k]))
  }

  /** The root alone is a valid path when the root is a Menu. */
  lemma RootPathValid<F>(slots: seq<Slot<F>>, root: nat)
    requires WellFormed(slots) && root < |slots| && slots[root].Branch?
    ensures PathValid(slots, root, [root])
  {
  }

  /** Entering a Menu row of the current view extends a valid path. */
  lemma PushKeepsPathValid<F>(slots: seq<Slot<F>>, root: nat, path: seq<nat>, j: nat)
    requires WellFormed(slots) && PathValid(slots, root, path)
    requires j < |View(slots, path)| && slots[View(slots, path)[j]].Branch?
    ensures PathValid(slots, root, path + [View(slots, path)[j]])
  {
    var p := path + [View(slots, path)[j]];
    assert forall k :: 0 <= k < |path| ==> p[k] == path[k];
    if |path| == 1 {
      assert p[1] in RootExpansion(slots, Children(slots, root));
    } else {
      assert p[|path|] in Children(slots, path[|path| - 1]);
    }
  }

  /** Leaving a sub-menu keeps a valid path valid. */
  lemma PopKeepsPathValid<F>(slots: seq<Slot<F>>, root: nat, path: seq<nat>)
    requires WellFormed(slots) && PathValid(slots, root, path) && |path| > 1
    ensures PathValid(slots, root, path[..|path| - 1])
  {
    var p := path[..|path| - 1];
    assert forall k :: 0 <= k < |p| ==> p[k] == path[k];
  }

  /** The element after the root is a child or a grandchild of the root. */
  lemma SecondIsChildOrGrandchild<F>(slots: seq<Slot<F>>, root: nat, path: seq<nat>)
    requires WellFormed(slots) && PathValid(slots, root, path) && |path| >= 2
    ensures TopOrChild(slots, Children(slots, root), path[1])
  {
    var top := Children(slots, root);
    RootExpansionMembers(slots, top);
    var v := RootExpansion(slots, top);
    var j :| 0 <= j < |v| && v[j] == path[1];
  }
}
