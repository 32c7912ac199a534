/**
 * The shared `Rc<RefCell<MenuNode>>` tree of src/main.rs as an arena: every node is a slot
 * addressed by its index, a Menu's children are the indices of other slots, and the mutable
 * `selected` flags live in a parallel sequence (an array in the running App). Slots are
 * allocated children first, as the nested `menu!`/`item!` arguments are evaluated, so every
 * child index is smaller than its parent's and the root is the last slot.
 */
module Arena {
  import opened MenuTree

  /** A slot: an Item's fixed part, or a Menu with the slot indices of its children. */
  datatype Slot<F> =
    | Leaf(name: string, scriptFn: F)
    | Branch(name: string, children: seq<nat>)

  /** Every child index points to an earlier slot (so the arena holds a forest, never a cycle). */
  predicate WellFormed<F>(slots: seq<Slot<F>>)
  {
    forall i, k :: 0 <= i < |slots| && slots[i].Branch? && 0 <= k < |slots[i].children| ==>
      slots[i].children[k] < i
  }

  /** The node at slot `i`, read back as a tree with the current `selected` flags. */
  function Decode<F>(slots: seq<Slot<F>>, flags: seq<bool>, i: nat): (n: MenuNode<F>)
    requires WellFormed(slots) && |flags| == |slots| && i < |slots|
    ensures n.name == slots[i].name
    ensures n.Item? <==> slots[i].Leaf?
    ensures n.Item? ==> n.scriptFn == slots[i].scriptFn && n.selected == flags[i]
    ensures n.Menu? ==> |n.children| == |slots[i].children|
    decreases i
  {
    match slots[i]
    case Leaf(name, scriptFn) => Item(name, scriptFn, flags[i])
    case Branch(name, cs) =>
      Menu(name, seq(|cs|, k requires 0 <= k < |cs| => Decode(slots, flags, cs[k])))
  }

  /** Position k of a decoded Menu is the decoded k-th child slot. */
  lemma DecodeChild<F>(slots: seq<Slot<F>>, flags: seq<bool>, i: nat, k: nat)
    requires WellFormed(slots) && |flags| == |slots| && i < |slots|
    requires slots[i].Branch? && k < |slots[i].children|
    ensures slots[i].children[k] < i
    ensures Decode(slots, flags, i).children[k] == Decode(slots, flags, slots[i].children[k])
  {
  }

  /** The decoded nodes at a run of slot indices. */
  function DecodeSeq<F>(slots: seq<Slot<F>>, flags: seq<bool>, idxs: seq<nat>): (ns: seq<MenuNode<F>>)
    requires WellFormed(slots) && |flags| == |slots|
    requires forall k :: 0 <= k < |idxs| ==> idxs[k] < |slots|
    ensures |ns| == |idxs|
    ensures forall k :: 0 <= k < |idxs| ==> ns[k] == Decode(slots, flags, idxs[k])
  {
    seq(|idxs|, k requires 0 <= k < |idxs| => Decode(slots, flags, idxs[k]))
  }

  /** The second arena extends the first, slot for slot and flag for flag. */
  ghost predicate Extends<F>(slots: seq<Slot<F>>, flags: seq<bool>, slots2: seq<Slot<F>>, flags2: seq<bool>)
  {
    |slots| <= |slots2| && |flags| <= |flags2| &&
    slots2[..|slots|] == slots && flags2[..|flags|] == flags
  }

  /** Allocating more slots never changes what an existing slot decodes to. */
  lemma {:induction false} DecodeExtends<F>(slots: seq<Slot<F>>, flags: seq<bool>,
                                            slots2: seq<Slot<F>>, flags2: seq<bool>, i: nat)
    requires WellFormed(slots) && |flags| == |slots|
    requires WellFormed(slots2) && |flags2| == |slots2|
    requires Extends(slots, flags, slots2, flags2)
    requires i < |slots|
    ensures Decode(slots2, flags2, i) == Decode(slots, flags, i)
    decreases i
  {
    assert slots2[i] == slots2[..|slots|][i];
    assert flags2[i] == flags2[..|flags|][i];
    match slots[i]
    case Leaf(_, _) =>
    case Branch(name, cs) =>
      var a, b := Decode(slots, flags, i), Decode(slots2, flags2, i);
      forall k | 0 <= k < |cs|
        ensures b.children[k] == a.children[k]
      {
        DecodeChild(slots, flags, i, k);
        DecodeChild(slots2, flags2, i, k);
        DecodeExtends(slots, flags, slots2, flags2, cs[k]);
      }
      assert b.children == a.children;
  }

  // ---------------------------------------------------------------------------
  // Allocation: what evaluating the nested `menu!`/`item!` expression does
  // ---------------------------------------------------------------------------

  /** Allocates tree `t` after the existing slots; returns the new arena and the index of `t`. */
  function AllocNode<F>(slots: seq<Slot<F>>, flags: seq<bool>, t: MenuNode<F>): (r: (seq<Slot<F>>, seq<bool>, nat))
    requires WellFormed(slots) && |flags| == |slots|
    ensures WellFormed(r.0) && |r.1| == |r.0|
    ensures |slots| < |r.0| && Extends(slots, flags, r.0, r.1)
    ensures r.2 == |r.0| - 1
    ensures r.0[r.2].name == t.name && (r.0[r.2].Branch? <==> t.Menu?)
    decreases t, 1
  {
    match t
    case Item(name, scriptFn, selected) =>
      (slots + [Leaf(name, scriptFn)], flags + [selected], |slots|)
    case Menu(name, children) =>
      var (s1, f1, idxs) := AllocSeq(slots, flags, children);
      assert forall k :: 0 <= k < |idxs| ==> idxs[k] < |s1|;
      var s2 := s1 + [Branch(name, idxs)];
      assert forall i :: 0 <= i < |s1| ==> s2[i] == s1[i];
      assert s2[..|slots|] == s1[..|slots|];
      assert (f1 + [false])[..|slots|] == f1[..|slots|];
      (s2, f1 + [false], |s1|)
  }

  /** Allocates the trees `ns` left to right; returns the new arena and their indices in order. */
  function AllocSeq<F>(slots: seq<Slot<F>>, flags: seq<bool>, ns: seq<MenuNode<F>>): (r: (seq<Slot<F>>, seq<bool>, seq<nat>))
    requires WellFormed(slots) && |flags| == |slots|
    ensures WellFormed(r.0) && |r.1| == |r.0|
    ensures Extends(slots, flags, r.0, r.1)
    ensures |r.2| == |ns|
    ensures forall k :: 0 <= k < |ns| ==> |slots| <= r.2[k] < |r.0|
    decreases ns, 0
  {
    if ns == [] then (slots, flags, [])
    else
      var (s1, f1, i1) := AllocNode(slots, flags, ns[0]);
      var (s2, f2, rest) := AllocSeq(s1, f1, ns[1..]);
      assert s2[..|slots|] == s2[..|s1|][..|slots|];
      assert f2[..|slots|] == f2[..|s1|][..|slots|];
      (s2, f2, [i1] + rest)
  }

  /** The arena of a whole tree; its root is the last slot. */
  function Build<F>(t: MenuNode<F>): (r: (seq<Slot<F>>, seq<bool>, nat))
    ensures WellFormed(r.0) && |r.1| == |r.0| && r.2 == |r.0| - 1
    ensures r.0[r.2].name == t.name && (r.0[r.2].Branch? <==> t.Menu?)
  {
    AllocNode([], [], t)
  }

  /** Reading the allocated node back gives the tree that was allocated. */
  lemma {:induction false} AllocNodeDecodes<F>(slots: seq<Slot<F>>, flags: seq<bool>, t: MenuNode<F>)
    requires WellFormed(slots) && |flags| == |slots|
    ensures var r := AllocNode(slots, flags, t); Decode(r.0, r.1, r.2) == t
    decreases t, 1
  {
    var r := AllocNode(slots, flags, t);
    match t
    case Item(_, _, _) =>
    case Menu(name, children) =>
      var (s1, f1, idxs) := AllocSeq(slots, flags, children);
      AllocSeqDecodes(slots, flags, children);
      var d := Decode(r.0, r.1, r.2);
      assert r.0[r.2] == Branch(name, idxs);
      forall k | 0 <= k < |children|
        ensures d.children[k] == children[k]
      {
        DecodeChild(r.0, r.1, r.2, k);
        assert r.0[..|s1|] == s1;
        DecodeExtends(s1, f1, r.0, r.1, idxs[k]);
      }
      assert d.children == children;
  }

  lemma {:induction false} AllocSeqDecodes<F>(slots: seq<Slot<F>>, flags: seq<bool>, ns: seq<MenuNode<F>>)
    requires WellFormed(slots) && |flags| == |slots|
    ensures var r := AllocSeq(slots, flags, ns);
      forall k :: 0 <= k < |ns| ==> Decode(r.0, r.1, r.2[k]) == ns[k]
    decreases ns, 0
  {
    if ns != [] {
      var r := AllocSeq(slots, flags, ns);
      var (s1, f1, i1) := AllocNode(slots, flags, ns[0]);
      var (s2, f2, rest) := AllocSeq(s1, f1, ns[1..]);
      AllocNodeDecodes(slots, flags, ns[0]);
      AllocSeqDecodes(s1, f1, ns[1..]);
      DecodeExtends(s1, f1, s2, f2, i1);
      forall k | 0 <= k < |ns|
        ensures Decode(r.0, r.1, r.2[k]) == ns[k]
      {
        if k > 0 {
          assert r.2[k] == rest[k - 1];
          assert ns[k] == ns[1..][k - 1];
        }
      }
    }
  }

  /** The round trip for a whole tree. */
  lemma BuildDecodes<F>(t: MenuNode<F>)
    ensures var r := Build(t); Decode(r.0, r.1, r.2) == t
  {
    AllocNodeDecodes([], [], t);
  }
}
