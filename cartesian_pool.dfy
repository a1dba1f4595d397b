/**
 * The sub-group pool of a Cartesian series as values: the invariant that
 * ties the pool to the children of the series root, how reconciliation
 * grows and shrinks it, and what each per-frame pass does to it.
 */
module CartesianPool {
  import opened Options
  import opened Seqs
  import opened CartesianData
  import opened CartesianScene
  import opened CartesianPick

  // ---------------------------------------------------------------------------
  // Child lists

  /** `s` with `x` removed (`removeChild`: a node that is not a child is ignored). */
  function Without(s: seq<NodeId>, x: NodeId): (r: seq<NodeId>)
    ensures |r| <= |s|
    decreases |s|
  {
    if s == [] then []
    else if s[0] == x then Without(s[1..], x)
    else [s[0]] + Without(s[1..], x)
  }

  lemma {:induction false} WithoutSpec(s: seq<NodeId>, x: NodeId)
    ensures Elems(Without(s, x)) == Elems(s) - {x}
    ensures NoDups(s) ==> NoDups(Without(s, x))
    decreases |s|
  {
    if s != [] {
      var rest := Without(s[1..], x);
      WithoutSpec(s[1..], x);
      assert Elems(s) == {s[0]} + Elems(s[1..]) by {
        assert forall y :: y in s <==> y == s[0] || y in s[1..];
      }
      if s[0] != x {
        assert Elems([s[0]] + rest) == {s[0]} + Elems(rest) by {
          assert forall y :: y in [s[0]] + rest <==> y == s[0] || y in rest;
        }
        if NoDups(s) {
          assert s[0] !in Elems(s[1..]);
          NoDupsAppend([s[0]], rest);
        }
      }
    }
  }

  /** `s` with every node of `ns` removed, in the order of `ns`. */
  function WithoutAll(s: seq<NodeId>, ns: seq<NodeId>): (r: seq<NodeId>)
    ensures |r| <= |s|
    decreases |ns|
  {
    if ns == [] then s else Without(WithoutAll(s, ns[..|ns| - 1]), ns[|ns| - 1])
  }

  lemma {:induction false} WithoutAllSpec(s: seq<NodeId>, ns: seq<NodeId>)
    ensures Elems(WithoutAll(s, ns)) == Elems(s) - Elems(ns)
    ensures NoDups(s) ==> NoDups(WithoutAll(s, ns))
    decreases |ns|
  {
    if ns != [] {
      var init := ns[..|ns| - 1];
      WithoutAllSpec(s, init);
      WithoutSpec(WithoutAll(s, init), ns[|ns| - 1]);
      assert Elems(ns) == Elems(init) + {ns[|ns| - 1]} by {
        assert ns == init + [ns[|ns| - 1]];
        assert forall y :: y in ns <==> y in init || y == ns[|ns| - 1];
      }
    }
  }

  lemma WithoutAllSnoc(s: seq<NodeId>, ns: seq<NodeId>, x: NodeId)
    ensures WithoutAll(s, ns + [x]) == Without(WithoutAll(s, ns), x)
  {
    assert (ns + [x])[..|ns|] == ns;
  }

  lemma RootNodeSeqNoDups(sg: SubGroup, opts: SeriesOpts, mainPathInPick: bool)
    requires WellFormed(sg, opts)
    ensures NoDups(RootNodeSeq(sg, mainPathInPick))
  {
    var s := RootNodeSeq(sg, mainPathInPick);
    var ids := PathIds(sg.paths);
    forall i, j | 0 <= i < j < |s| ensures s[i] != s[j] {
      if i >= |s| - |ids| && !mainPathInPick {
        var k1 := i - (|s| - |ids|);
        var k2 := j - (|s| - |ids|);
        assert s[i] == PathNode(sg.id, k1) && s[j] == PathNode(sg.id, k2);
      }
    }
  }

  // ---------------------------------------------------------------------------
  // The pool invariant

  /** Sub-group ids are spaced by at least one allocation step, in pool order. */
  ghost predicate IdsSpaced(sgs: seq<SubGroup>, opts: SeriesOpts)
  {
    forall i, j :: 0 <= i < j < |sgs| ==> sgs[i].id + SubGroupIdStep(opts) <= sgs[j].id
  }

  /**
   * The invariant of the pool: well-formed sub-groups with spaced ids below
   * the allocation counter, and a series root whose children are exactly
   * the nodes the pooled sub-groups attach, each once.
   */
  ghost predicate PoolInvariant(opts: SeriesOpts, sgs: seq<SubGroup>, counter: nat, children: seq<NodeId>)
  {
    && (forall i :: 0 <= i < |sgs| ==> WellFormed(sgs[i], opts))
    && IdsSpaced(sgs, opts)
    && (forall i :: 0 <= i < |sgs| ==> sgs[i].id + SubGroupIdStep(opts) <= counter)
    && Elems(children) == Attached(sgs, MainPath in opts.pickGroupIncludes)
    && NoDups(children)
  }

  lemma EmptyPool(opts: SeriesOpts)
    ensures PoolInvariant(opts, [], 0, [])
  {
  }

  /** The nodes of a sub-group allocated at `counter` are not yet attached. */
  lemma FreshNodesDetached(opts: SeriesOpts, z: int, sgs: seq<SubGroup>, counter: nat, mp: bool)
    requires forall i :: 0 <= i < |sgs| ==> WellFormed(sgs[i], opts) && sgs[i].id < counter
    ensures Attached(sgs, mp) !! RootNodes(NewSubGroup(opts, z, counter), mp)
  {
    var sg := NewSubGroup(opts, z, counter);
    NewSubGroupWellFormed(opts, z, counter);
    RootNodesOwned(sg, opts, mp);
    AttachedOwned(sgs, opts, mp);
    forall n | n in Attached(sgs, mp) ensures n !in RootNodes(sg, mp) {
      var i :| 0 <= i < |sgs| && sgs[i].id as int == Owner(n);
    }
  }

  /** Attaching a freshly allocated sub-group keeps the invariant. */
  lemma {:induction false} PoolAppend(opts: SeriesOpts, z: int, sgs: seq<SubGroup>, counter: nat, children: seq<NodeId>)
    requires PoolInvariant(opts, sgs, counter, children)
    ensures PoolInvariant(opts, sgs + [NewSubGroup(opts, z, counter)], counter + SubGroupIdStep(opts),
                          children + RootNodeSeq(NewSubGroup(opts, z, counter), MainPath in opts.pickGroupIncludes))
  {
    var mp := MainPath in opts.pickGroupIncludes;
    var step := SubGroupIdStep(opts);
    var sg := NewSubGroup(opts, z, counter);
    NewSubGroupWellFormed(opts, z, counter);
    var added := RootNodeSeq(sg, mp);
    RootNodeSeqElems(sg, mp);
    RootNodeSeqNoDups(sg, opts, mp);
    FreshNodesDetached(opts, z, sgs, counter, mp);
    NoDupsAppend(children, added);
    AttachedAppend(sgs, sg, mp);
    assert Elems(children + added) == Elems(children) + Elems(added) by {
      assert forall y :: y in children + added <==> y in children || y in added;
    }
    IdsAppend(opts, sgs, sg, counter);
  }

  /** Appending a well-formed sub-group whose id is the counter keeps the ids spaced and below the new counter. */
  lemma IdsAppend(opts: SeriesOpts, sgs: seq<SubGroup>, sg: SubGroup, counter: nat)
    requires forall i :: 0 <= i < |sgs| ==> WellFormed(sgs[i], opts) && sgs[i].id + SubGroupIdStep(opts) <= counter
    requires IdsSpaced(sgs, opts)
    requires WellFormed(sg, opts) && sg.id == counter
    ensures forall i :: 0 <= i < |sgs + [sg]| ==>
      WellFormed((sgs + [sg])[i], opts) && (sgs + [sg])[i].id + SubGroupIdStep(opts) <= counter + SubGroupIdStep(opts)
    ensures IdsSpaced(sgs + [sg], opts)
  {
    var sgs' := sgs + [sg];
    var step := SubGroupIdStep(opts);
    assert forall i :: 0 <= i < |sgs| ==> sgs'[i] == sgs[i];
    forall i, j | 0 <= i < j < |sgs'| ensures sgs'[i].id + step <= sgs'[j].id {
      assert sgs'[i] == sgs[i];
      if j < |sgs| { assert sgs'[j] == sgs[j]; }
    }
  }

  /** Cutting a stretch out of the pool keeps its sub-groups well formed, spaced and below the counter. */
  lemma IdsSpacedCut(sgs: seq<SubGroup>, opts: SeriesOpts, a: nat, b: nat, counter: nat)
    requires a <= b <= |sgs|
    requires forall i :: 0 <= i < |sgs| ==> WellFormed(sgs[i], opts) && sgs[i].id + SubGroupIdStep(opts) <= counter
    requires IdsSpaced(sgs, opts)
    ensures forall i :: 0 <= i < |sgs[..a] + sgs[b..]| ==>
      WellFormed((sgs[..a] + sgs[b..])[i], opts) && (sgs[..a] + sgs[b..])[i].id + SubGroupIdStep(opts) <= counter
    ensures IdsSpaced(sgs[..a] + sgs[b..], opts)
  {
    var t := sgs[..a] + sgs[b..];
    assert forall i :: 0 <= i < |t| ==> t[i] == sgs[if i < a then i else i - a + b];
  }

  /** The nodes of a sub-group are attached by no other sub-group of the pool. */
  lemma NodesOwnedElsewhere(sgs: seq<SubGroup>, others: seq<SubGroup>, opts: SeriesOpts, mp: bool, k: nat)
    requires k < |sgs| && WellFormed(sgs[k], opts)
    requires forall i :: 0 <= i < |others| ==> WellFormed(others[i], opts) && others[i].id != sgs[k].id
    ensures RootNodes(sgs[k], mp) !! Attached(others, mp)
  {
    AttachedOwned(others, opts, mp);
    RootNodesOwned(sgs[k], opts, mp);
    forall n | n in Attached(others, mp) ensures n !in RootNodes(sgs[k], mp) {
      var i :| 0 <= i < |others| && others[i].id as int == Owner(n);
    }
  }

  /** The attached set of a pool, split around position `k`. */
  lemma AttachedSplit(sgs: seq<SubGroup>, mp: bool, k: nat)
    requires k < |sgs|
    ensures Attached(sgs, mp) == Attached(sgs[..k], mp) + RootNodes(sgs[k], mp) + Attached(sgs[k + 1..], mp)
    ensures Attached(sgs[..k] + sgs[k + 1..], mp) == Attached(sgs[..k], mp) + Attached(sgs[k + 1..], mp)
  {
    var front := sgs[..k];
    var back := sgs[k + 1..];
    assert sgs == front + [sgs[k]] + back;
    AttachedConcat(front + [sgs[k]], back, mp);
    AttachedAppend(front, sgs[k], mp);
    AttachedConcat(front, back, mp);
  }

  lemma RemoveDisjoint(a: set<NodeId>, r: set<NodeId>, b: set<NodeId>)
    requires r !! a && r !! b
    ensures (a + r + b) - r == a + b
  {
  }

  /** Removing one sub-group's root nodes from the attached set leaves exactly the others'. */
  lemma {:induction false} AttachedRemoveAt(sgs: seq<SubGroup>, opts: SeriesOpts, mp: bool, k: nat)
    requires forall i :: 0 <= i < |sgs| ==> WellFormed(sgs[i], opts)
    requires IdsSpaced(sgs, opts) && k < |sgs|
    ensures Attached(sgs, mp) - RootNodes(sgs[k], mp) == Attached(sgs[..k] + sgs[k + 1..], mp)
  {
    var front := sgs[..k];
    var back := sgs[k + 1..];
    AttachedSplit(sgs, mp, k);
    forall i | 0 <= i < |front| ensures WellFormed(front[i], opts) && front[i].id != sgs[k].id {
      assert front[i] == sgs[i];
    }
    forall i | 0 <= i < |back| ensures WellFormed(back[i], opts) && back[i].id != sgs[k].id {
      assert back[i] == sgs[k + 1 + i];
    }
    NodesOwnedElsewhere(sgs, front, opts, mp, k);
    NodesOwnedElsewhere(sgs, back, opts, mp, k);
    RemoveDisjoint(Attached(front, mp), RootNodes(sgs[k], mp), Attached(back, mp));
  }

  /** The nodes each removed sub-group takes off the series root. */
  function DetachedNodes(sg: SubGroup, mainPathInPick: bool): (r: seq<NodeId>)
    ensures Elems(r) == RootNodes(sg, mainPathInPick)
  {
    RootNodeSeqElems(sg, mainPathInPick);
    RootNodeSeq(sg, mainPathInPick)
  }

  /**
   * Removing the sub-group at position `k` from the pool, and its nodes from
   * the series root, keeps the invariant.
   */
  lemma {:induction false} PoolRemoveAt(opts: SeriesOpts, sgs: seq<SubGroup>, k: nat, counter: nat, children: seq<NodeId>)
    requires k < |sgs|
    requires PoolInvariant(opts, sgs, counter, children)
    ensures PoolInvariant(opts, sgs[..k] + sgs[k + 1..], counter,
                          WithoutAll(children, DetachedNodes(sgs[k], MainPath in opts.pickGroupIncludes)))
  {
    var mp := MainPath in opts.pickGroupIncludes;
    AttachedRemoveAt(sgs, opts, mp, k);
    RootNodeSeqElems(sgs[k], mp);
    WithoutAllSpec(children, DetachedNodes(sgs[k], mp));
    IdsSpacedCut(sgs, opts, k, k + 1, counter);
  }

  /**
   * The nodes the shrink branch takes off the series root as the code is
   * written: the main group, the marker group and the root-level paths. The
   * label group, which allocation also attached to the root, is missing.
   */
  function DetachedNodesAsWritten(sg: SubGroup, mainPathInPick: bool): (r: seq<NodeId>)
    ensures Elems(r) + {sg.labelGroup.node} == RootNodes(sg, mainPathInPick)
  {
    RootNodeSeqElems(sg, mainPathInPick);
    [sg.group.node]
    + (if sg.markerGroup.Some? then [sg.markerGroup.value.node] else [])
    + (if mainPathInPick then [] else PathIds(sg.paths))
  }

  /**
   * As written, removing any pooled sub-group leaves its label group attached
   * under the series root, so the pool invariant no longer holds.
   */
  lemma {:induction false} ShrinkAsWrittenLeavesLabelGroup(opts: SeriesOpts, sgs: seq<SubGroup>, k: nat, counter: nat,
                                                          children: seq<NodeId>)
    requires k < |sgs|
    requires PoolInvariant(opts, sgs, counter, children)
    ensures sgs[k].labelGroup.node
            in WithoutAll(children, DetachedNodesAsWritten(sgs[k], MainPath in opts.pickGroupIncludes))
    ensures !PoolInvariant(opts, sgs[..k] + sgs[k + 1..], counter,
                           WithoutAll(children, DetachedNodesAsWritten(sgs[k], MainPath in opts.pickGroupIncludes)))
  {
    var mp := MainPath in opts.pickGroupIncludes;
    var sg := sgs[k];
    var detached := DetachedNodesAsWritten(sg, mp);
    WithoutAllSpec(children, detached);
    AttachedSplit(sgs, mp, k);
    RootNodeSeqElems(sg, mp);
    assert sg.labelGroup.node in Elems(children);
    assert WellFormed(sg, opts);
    assert sg.labelGroup.node !in Elems(detached) by {
      if !mp {
        assert forall i :: 0 <= i < |sg.paths| ==> PathIds(sg.paths)[i] == PathNode(sg.id, i);
      }
    }
    assert sg.labelGroup.node in Elems(WithoutAll(children, detached));
    AttachedRemoveAt(sgs, opts, mp, k);
    assert sg.labelGroup.node !in Attached(sgs[..k] + sgs[k + 1..], mp);
  }

  /**
   * The smallest case: default options, one sub-group allocated at counter 0,
   * then zero contexts. As written the root keeps the label group; with the
   * label group detached as well the root is left empty.
   */
  lemma ShrinkAsWrittenExample(z: int)
    ensures RootNodeSeq(NewSubGroup(ResolveOpts(PartialSeriesOpts(None, None, None, None)), z, 0), false)
            == [MainGroup(0), LabelGroup(0), PathNode(0, 0)]
    ensures DetachedNodesAsWritten(NewSubGroup(ResolveOpts(PartialSeriesOpts(None, None, None, None)), z, 0), false)
            == [MainGroup(0), PathNode(0, 0)]
    ensures WithoutAll([MainGroup(0), LabelGroup(0), PathNode(0, 0)], [MainGroup(0), PathNode(0, 0)]) == [LabelGroup(0)]
    ensures WithoutAll([MainGroup(0), LabelGroup(0), PathNode(0, 0)], [MainGroup(0), LabelGroup(0), PathNode(0, 0)]) == []
  {
    var sg := NewSubGroup(ResolveOpts(PartialSeriesOpts(None, None, None, None)), z, 0);
    assert PathIds(sg.paths) == [PathNode(0, 0)];
    var s := [MainGroup(0), LabelGroup(0), PathNode(0, 0)];
    assert [MainGroup(0), PathNode(0, 0)][..1] == [MainGroup(0)];
    assert s[..2] == [MainGroup(0), LabelGroup(0)] && s[..2][..1] == [MainGroup(0)];
    assert Without(s, MainGroup(0)) == [LabelGroup(0), PathNode(0, 0)];
    assert Without([LabelGroup(0), PathNode(0, 0)], PathNode(0, 0)) == [LabelGroup(0)];
    assert Without([LabelGroup(0), PathNode(0, 0)], LabelGroup(0)) == [PathNode(0, 0)];
    assert Without([PathNode(0, 0)], PathNode(0, 0)) == [];
  }

  // ---------------------------------------------------------------------------
  // Reconciliation

  /** The allocation counter after `count` sub-groups were allocated from `start`. */
  function CounterAfter(opts: SeriesOpts, start: nat, count: nat): nat
  {
    if count == 0 then start else CounterAfter(opts, start, count - 1) + SubGroupIdStep(opts)
  }

  /** The sub-groups allocated while the counter runs from `start`, `count` of them. */
  function NewSubGroups(opts: SeriesOpts, z: int, start: nat, count: nat): (r: seq<SubGroup>)
    ensures |r| == count
  {
    if count == 0 then []
    else NewSubGroups(opts, z, start, count - 1) + [NewSubGroup(opts, z, CounterAfter(opts, start, count - 1))]
  }

  lemma {:induction false} CounterAfterIsProduct(opts: SeriesOpts, start: nat, count: nat)
    ensures CounterAfter(opts, start, count) == start + count * SubGroupIdStep(opts)
  {
    if count > 0 {
      CounterAfterIsProduct(opts, start, count - 1);
    }
  }

  /**
   * The `i`-th fresh sub-group is the one allocated at the counter after `i`
   * allocations, which lies at or above `start` and below the final counter.
   */
  lemma {:induction false} NewSubGroupsAt(opts: SeriesOpts, z: int, start: nat, count: nat, i: nat)
    requires i < count
    ensures NewSubGroups(opts, z, start, count)[i] == NewSubGroup(opts, z, CounterAfter(opts, start, i))
    ensures start <= CounterAfter(opts, start, i) < CounterAfter(opts, start, count)
  {
    var prev := NewSubGroups(opts, z, start, count - 1);
    var last := NewSubGroup(opts, z, CounterAfter(opts, start, count - 1));
    assert NewSubGroups(opts, z, start, count) == prev + [last];
    if i < count - 1 {
      NewSubGroupsAt(opts, z, start, count - 1, i);
      assert (prev + [last])[i] == prev[i];
    } else {
      CounterAfterIsProduct(opts, start, i);
    }
  }

  /** The nodes the first `count` fresh sub-groups attach under the series root, in order. */
  function NewRoots(opts: SeriesOpts, z: int, start: nat, count: nat): seq<NodeId>
  {
    if count == 0 then []
    else NewRoots(opts, z, start, count - 1)
         + RootNodeSeq(NewSubGroup(opts, z, CounterAfter(opts, start, count - 1)), MainPath in opts.pickGroupIncludes)
  }

  /** Allocating the next fresh sub-group extends the pool and the root children by one more. */
  lemma GrowStep(opts: SeriesOpts, z: int, initial: seq<SubGroup>, pool: seq<SubGroup>,
                 children0: seq<NodeId>, children: seq<NodeId>, start: nat, count: nat)
    requires pool == initial + NewSubGroups(opts, z, start, count)
    requires children == children0 + NewRoots(opts, z, start, count)
    ensures pool + [NewSubGroup(opts, z, CounterAfter(opts, start, count))]
            == initial + NewSubGroups(opts, z, start, count + 1)
    ensures children + RootNodeSeq(NewSubGroup(opts, z, CounterAfter(opts, start, count)), MainPath in opts.pickGroupIncludes)
            == children0 + NewRoots(opts, z, start, count + 1)
    ensures CounterAfter(opts, start, count) + SubGroupIdStep(opts) == CounterAfter(opts, start, count + 1)
  {
    var sg := NewSubGroup(opts, z, CounterAfter(opts, start, count));
    var added := NewSubGroups(opts, z, start, count);
    NewSubGroupsSnoc(opts, z, start, count);
    assert initial + added + [sg] == initial + (added + [sg]);
    var roots := NewRoots(opts, z, start, count);
    var more := RootNodeSeq(sg, MainPath in opts.pickGroupIncludes);
    NewRootsSnoc(opts, z, start, count);
    assert children0 + roots + more == children0 + (roots + more);
  }

  /** One more allocation appends one more fresh sub-group. */
  lemma NewSubGroupsSnoc(opts: SeriesOpts, z: int, start: nat, count: nat)
    ensures NewSubGroups(opts, z, start, count + 1)
            == NewSubGroups(opts, z, start, count) + [NewSubGroup(opts, z, CounterAfter(opts, start, count))]
    ensures CounterAfter(opts, start, count) + SubGroupIdStep(opts) == CounterAfter(opts, start, count + 1)
  {
    assert count + 1 - 1 == count;
  }

  /** One more allocation appends the root-level nodes of one more fresh sub-group. */
  lemma NewRootsSnoc(opts: SeriesOpts, z: int, start: nat, count: nat)
    ensures NewRoots(opts, z, start, count + 1)
            == NewRoots(opts, z, start, count)
               + RootNodeSeq(NewSubGroup(opts, z, CounterAfter(opts, start, count)), MainPath in opts.pickGroupIncludes)
  {
    assert count + 1 - 1 == count;
  }

  /** Allocating and attaching one more fresh sub-group keeps the pool invariant. */
  lemma GrowKeepsPoolStep(opts: SeriesOpts, z: int, sgs: seq<SubGroup>, counter: nat,
                          children: seq<NodeId>, count: nat)
    requires 0 < count
    requires PoolInvariant(opts, sgs + NewSubGroups(opts, z, counter, count - 1), CounterAfter(opts, counter, count - 1),
                           children + NewRoots(opts, z, counter, count - 1))
    ensures PoolInvariant(opts, sgs + NewSubGroups(opts, z, counter, count), CounterAfter(opts, counter, count),
                          children + NewRoots(opts, z, counter, count))
  {
    var pool := sgs + NewSubGroups(opts, z, counter, count - 1);
    var roots := children + NewRoots(opts, z, counter, count - 1);
    var c := CounterAfter(opts, counter, count - 1);
    PoolAppend(opts, z, pool, c, roots);
    GrowStep(opts, z, sgs, pool, children, roots, counter, count - 1);
    PoolInvariantEq(opts, pool + [NewSubGroup(opts, z, c)], c + SubGroupIdStep(opts),
                    roots + RootNodeSeq(NewSubGroup(opts, z, c), MainPath in opts.pickGroupIncludes),
                    sgs + NewSubGroups(opts, z, counter, count), CounterAfter(opts, counter, count),
                    children + NewRoots(opts, z, counter, count));
  }

  /** Allocating and attaching `count` fresh sub-groups keeps the pool invariant. */
  lemma {:induction false} GrowKeepsPool(opts: SeriesOpts, z: int, sgs: seq<SubGroup>, counter: nat,
                                         children: seq<NodeId>, count: nat)
    requires PoolInvariant(opts, sgs, counter, children)
    ensures PoolInvariant(opts, sgs + NewSubGroups(opts, z, counter, count), CounterAfter(opts, counter, count),
                          children + NewRoots(opts, z, counter, count))
  {
    if count == 0 {
      PoolInvariantEq(opts, sgs, counter, children,
                      sgs + NewSubGroups(opts, z, counter, 0), CounterAfter(opts, counter, 0),
                      children + NewRoots(opts, z, counter, 0));
    } else {
      GrowKeepsPool(opts, z, sgs, counter, children, count - 1);
      GrowKeepsPoolStep(opts, z, sgs, counter, children, count);
    }
  }

  /** A pool grown by `count` fresh sub-groups keeps the invariant, and the root children only grew. */
  lemma GrownPool(opts: SeriesOpts, z: int, sgs: seq<SubGroup>, counter: nat, children: seq<NodeId>, count: nat,
                  sgs': seq<SubGroup>, counter': nat, children': seq<NodeId>)
    requires PoolInvariant(opts, sgs, counter, children)
    requires sgs' == sgs + NewSubGroups(opts, z, counter, count)
    requires counter' == CounterAfter(opts, counter, count)
    requires children' == children + NewRoots(opts, z, counter, count)
    ensures PoolInvariant(opts, sgs', counter', children')
    ensures children <= children'
  {
    GrowKeepsPool(opts, z, sgs, counter, children, count);
    PoolInvariantEq(opts, sgs + NewSubGroups(opts, z, counter, count), CounterAfter(opts, counter, count),
                    children + NewRoots(opts, z, counter, count), sgs', counter', children');
    assert children'[..|children|] == children;
  }

  lemma PoolInvariantEq(opts: SeriesOpts, sgs: seq<SubGroup>, counter: nat, children: seq<NodeId>,
                        sgs': seq<SubGroup>, counter': nat, children': seq<NodeId>)
    requires PoolInvariant(opts, sgs, counter, children)
    requires sgs == sgs' && counter == counter' && children == children'
    ensures PoolInvariant(opts, sgs', counter', children')
  {
  }

  /** The pool after reconciliation with `n` contexts: truncated, or extended by fresh sub-groups. */
  function Reconciled(opts: SeriesOpts, z: int, sgs: seq<SubGroup>, counter: nat, n: nat): (r: seq<SubGroup>)
    ensures |r| == n
  {
    if n <= |sgs| then sgs[..n] else sgs + NewSubGroups(opts, z, counter, n - |sgs|)
  }

  /** The counter after reconciliation: one step per fresh sub-group. */
  function ReconciledCounter(opts: SeriesOpts, sgs: seq<SubGroup>, counter: nat, n: nat): nat
  {
    if n <= |sgs| then counter else CounterAfter(opts, counter, n - |sgs|)
  }

  /** Reconciliation in each of its three cases, unfolded. */
  lemma ReconciledCases(opts: SeriesOpts, z: int, sgs: seq<SubGroup>, counter: nat, n: nat)
    ensures n == |sgs| ==> Reconciled(opts, z, sgs, counter, n) == sgs
    ensures n < |sgs| ==> Reconciled(opts, z, sgs, counter, n) == sgs[..n]
    ensures |sgs| < n ==> Reconciled(opts, z, sgs, counter, n) == sgs + NewSubGroups(opts, z, counter, n - |sgs|)
    ensures |sgs| < n ==> ReconciledCounter(opts, sgs, counter, n) == CounterAfter(opts, counter, n - |sgs|)
    ensures n <= |sgs| ==> ReconciledCounter(opts, sgs, counter, n) == counter
  {
    if n == |sgs| {
      assert sgs[..n] == sgs;
    }
  }

  /**
   * What reconciliation promises about the pool: the surviving prefix is
   * unchanged and in order, and every appended sub-group is a fresh one
   * whose counter value lies at or above the previous counter.
   */
  lemma ReconciledShape(opts: SeriesOpts, z: int, sgs: seq<SubGroup>, counter: nat, n: nat)
    ensures n == |sgs| ==> Reconciled(opts, z, sgs, counter, n) == sgs
    ensures forall i :: 0 <= i < n && i < |sgs| ==> Reconciled(opts, z, sgs, counter, n)[i] == sgs[i]
    ensures forall i :: |sgs| <= i < n ==>
      && Reconciled(opts, z, sgs, counter, n)[i] == NewSubGroup(opts, z, Reconciled(opts, z, sgs, counter, n)[i].id)
      && counter <= Reconciled(opts, z, sgs, counter, n)[i].id < ReconciledCounter(opts, sgs, counter, n)
      && WellFormed(Reconciled(opts, z, sgs, counter, n)[i], opts)
  {
    var r := Reconciled(opts, z, sgs, counter, n);
    if n > |sgs| {
      forall i | |sgs| <= i < n
        ensures r[i] == NewSubGroup(opts, z, r[i].id)
        ensures counter <= r[i].id < ReconciledCounter(opts, sgs, counter, n)
        ensures WellFormed(r[i], opts)
      {
        var k := i - |sgs|;
        NewSubGroupsAt(opts, z, counter, n - |sgs|, k);
        assert r[i] == NewSubGroups(opts, z, counter, n - |sgs|)[k];
        NewSubGroupWellFormed(opts, z, CounterAfter(opts, counter, k));
      }
    }
  }

  /** The counter never goes down, and goes up by 3 (4 with markers) per appended sub-group. */
  lemma CounterIncreases(opts: SeriesOpts, sgs: seq<SubGroup>, counter: nat, n: nat)
    ensures ReconciledCounter(opts, sgs, counter, n) >= counter
    ensures n > |sgs| ==> ReconciledCounter(opts, sgs, counter, n) - counter
                          == (n - |sgs|) * (if MarkersEnabled(opts) then 4 else 3)
  {
    if n > |sgs| {
      CounterAfterIsProduct(opts, counter, n - |sgs|);
    }
  }

  // ---------------------------------------------------------------------------
  // The selection pass

  /**
   * The extension points a concrete series supplies: its node data, the
   * selection updates, and whether it considers its selections dirty.
   */
  datatype Hooks = Hooks(
    createNodeData: seq<Context>,
    updateDatumSelection: (seq<NodeDatum>, Selection, int) -> Selection,
    updateMarkerSelection: (seq<NodeDatum>, Selection, int) -> Selection,
    updateLabelSelection: (seq<LabelDatum>, Selection, int) -> Selection,
    isPathOrSelectionDirty: bool)

  /** A sub-group after its selections are re-bound to context `ctx`. */
  function Rebind(sg: SubGroup, ctx: Context, i: int, hooks: Hooks): SubGroup
  {
    sg.(datumSelection := hooks.updateDatumSelection(ctx.nodeData, sg.datumSelection, i),
        labelSelection := hooks.updateLabelSelection(ctx.labelData, sg.labelSelection, i),
        markerSelection :=
          if sg.markerSelection.Some?
          then Some(hooks.updateMarkerSelection(ctx.nodeData, sg.markerSelection.value, i))
          else None)
  }

  function RebindAll(sgs: seq<SubGroup>, ctxs: seq<Context>, hooks: Hooks): (r: seq<SubGroup>)
    requires |sgs| <= |ctxs|
    ensures |r| == |sgs|
  {
    seq(|sgs|, i requires 0 <= i < |sgs| => Rebind(sgs[i], ctxs[i], i, hooks))
  }

  /** The hooks one sub-group's selection update calls, in order. */
  function SelectionCalls(sg: SubGroup, ctx: Context, i: int, seriesHighlighted: Option<bool>): seq<HookCall>
  {
    [UpdatePaths(i, ctx.itemId, seriesHighlighted),
     UpdateDatumSelection(i, ctx.nodeData),
     UpdateLabelSelection(i, ctx.labelData)]
    + (if sg.markerSelection.Some? then [UpdateMarkerSelection(i, ctx.nodeData)] else [])
  }

  /** The hooks the selection pass calls for the first `n` sub-groups. */
  function SelectionPassCalls(sgs: seq<SubGroup>, ctxs: seq<Context>, seriesHighlighted: Option<bool>, n: nat): seq<HookCall>
    requires n <= |sgs| <= |ctxs|
  {
    if n == 0 then []
    else SelectionPassCalls(sgs, ctxs, seriesHighlighted, n - 1) + SelectionCalls(sgs[n - 1], ctxs[n - 1], n - 1, seriesHighlighted)
  }

  /**
   * The selection pass visits sub-groups in pool order: every call names a
   * pooled sub-group, and the indices along the log never decrease.
   */
  lemma {:induction false} SelectionPassInPoolOrder(sgs: seq<SubGroup>, ctxs: seq<Context>, sh: Option<bool>, n: nat)
    requires n <= |sgs| <= |ctxs|
    ensures forall a :: 0 <= a < |SelectionPassCalls(sgs, ctxs, sh, n)| ==>
      CallIndex(SelectionPassCalls(sgs, ctxs, sh, n)[a]).Some? && 0 <= CallIndex(SelectionPassCalls(sgs, ctxs, sh, n)[a]).value < n
    ensures forall a, b :: 0 <= a < b < |SelectionPassCalls(sgs, ctxs, sh, n)| ==>
      CallIndex(SelectionPassCalls(sgs, ctxs, sh, n)[a]).value <= CallIndex(SelectionPassCalls(sgs, ctxs, sh, n)[b]).value
  {
    if n > 0 {
      SelectionPassInPoolOrder(sgs, ctxs, sh, n - 1);
      var front := SelectionPassCalls(sgs, ctxs, sh, n - 1);
      var last := SelectionCalls(sgs[n - 1], ctxs[n - 1], n - 1, sh);
      var cs := front + last;
      assert forall a :: 0 <= a < |last| ==> CallIndex(last[a]) == Some(n - 1);
      forall a | 0 <= a < |cs| ensures CallIndex(cs[a]).Some? && 0 <= CallIndex(cs[a]).value < n {
        if a < |front| {
          assert cs[a] == front[a];
        } else {
          assert cs[a] == last[a - |front|];
        }
      }
      forall a, b | 0 <= a < b < |cs| ensures CallIndex(cs[a]).value <= CallIndex(cs[b]).value {
        if b < |front| {
          assert cs[a] == front[a] && cs[b] == front[b];
        } else if a < |front| {
          assert cs[a] == front[a] && cs[b] == last[b - |front|];
        } else {
          assert cs[a] == last[a - |front|] && cs[b] == last[b - |front|];
        }
      }
    }
  }

  /** Re-binding selections leaves every sub-group's structure, and so the pool invariant, intact. */
  lemma {:induction false} RebindKeepsPool(opts: SeriesOpts, sgs: seq<SubGroup>, ctxs: seq<Context>, hooks: Hooks,
                                           counter: nat, children: seq<NodeId>)
    requires |sgs| <= |ctxs|
    requires PoolInvariant(opts, sgs, counter, children)
    ensures PoolInvariant(opts, RebindAll(sgs, ctxs, hooks), counter, children)
  {
    var r := RebindAll(sgs, ctxs, hooks);
    AttachedSameNodes(sgs, r, MainPath in opts.pickGroupIncludes);
  }

  // ---------------------------------------------------------------------------
  // The node pass

  /** What the opacity query of the base series is asked: the whole series, or one item. */
  datatype OpacityQuery = SeriesOpacity | ItemOpacity(itemId: Option<string>)

  /** `seriesItemEnabled.get(itemId) ?? true` */
  function ItemEnabled(m: map<string, bool>, itemId: Option<string>): (r: bool)
    ensures !r ==> itemId.Some? && itemId.value in m && !m[itemId.value]
    ensures itemId.Some? && itemId.value in m ==> r == m[itemId.value]
  {
    if itemId.Some? && itemId.value in m then m[itemId.value] else true
  }

  /**
   * A sub-group after the node pass: its main group takes the item's
   * opacity and visibility, and its marker group and paths copy them; the
   * marker group is lifted one z-level when the main group sits below the
   * series layer.
   */
  function Styled(sg: SubGroup, ctx: Context, overall: bool, m: map<string, bool>,
                  getOpacity: OpacityQuery -> real, z: int): (r: SubGroup)
    ensures r.id == sg.id && |r.paths| == |sg.paths|
    ensures r.group.opacity == getOpacity(ItemOpacity(ctx.itemId))
    ensures r.group.visible <==> overall && ItemEnabled(m, ctx.itemId)
    ensures r.markerGroup.Some? ==>
      (r.markerGroup.value.visible == r.group.visible && r.markerGroup.value.opacity == r.group.opacity
       && r.markerGroup.value.zIndex >= r.group.zIndex)
    ensures forall k :: 0 <= k < |r.paths| ==> r.paths[k].visible == r.group.visible && r.paths[k].opacity == r.group.opacity
  {
    var opacity := getOpacity(ItemOpacity(ctx.itemId));
    var groupVisible := overall && ItemEnabled(m, ctx.itemId);
    var group := sg.group.(opacity := opacity, visible := groupVisible);
    sg.(group := group,
        markerGroup :=
          if sg.markerGroup.Some?
          then Some(sg.markerGroup.value.(opacity := opacity,
                                          zIndex := if group.zIndex >= z then group.zIndex else group.zIndex + 1,
                                          visible := groupVisible))
          else None,
        paths := seq(|sg.paths|, k requires 0 <= k < |sg.paths| => sg.paths[k].(opacity := opacity, visible := groupVisible)))
  }

  /** The pool part-way through the node pass: the first `n` sub-groups styled, the rest untouched. */
  function StyledUpTo(sgs: seq<SubGroup>, ctxs: seq<Context>, overall: bool, m: map<string, bool>,
                      getOpacity: OpacityQuery -> real, z: int, n: nat): (r: seq<SubGroup>)
    requires n <= |sgs| <= |ctxs|
    ensures |r| == |sgs|
  {
    if n == 0 then sgs
    else StyledUpTo(sgs, ctxs, overall, m, getOpacity, z, n - 1)[n - 1 := Styled(sgs[n - 1], ctxs[n - 1], overall, m, getOpacity, z)]
  }

  lemma {:induction false} StyledUpToAt(sgs: seq<SubGroup>, ctxs: seq<Context>, overall: bool, m: map<string, bool>,
                                        getOpacity: OpacityQuery -> real, z: int, n: nat, k: nat)
    requires n <= |sgs| <= |ctxs| && k < |sgs|
    ensures k < n ==> StyledUpTo(sgs, ctxs, overall, m, getOpacity, z, n)[k] == Styled(sgs[k], ctxs[k], overall, m, getOpacity, z)
    ensures n <= k ==> StyledUpTo(sgs, ctxs, overall, m, getOpacity, z, n)[k] == sgs[k]
  {
    if n > 0 {
      StyledUpToAt(sgs, ctxs, overall, m, getOpacity, z, n - 1, k);
    }
  }

  /** One step of the node pass styles the next untouched sub-group. */
  lemma StyledUpToStep(sgs: seq<SubGroup>, ctxs: seq<Context>, overall: bool, m: map<string, bool>,
                       getOpacity: OpacityQuery -> real, z: int, n: nat)
    requires n < |sgs| <= |ctxs|
    ensures StyledUpTo(sgs, ctxs, overall, m, getOpacity, z, n)[n] == sgs[n]
    ensures StyledUpTo(sgs, ctxs, overall, m, getOpacity, z, n + 1)
            == StyledUpTo(sgs, ctxs, overall, m, getOpacity, z, n)[n := Styled(sgs[n], ctxs[n], overall, m, getOpacity, z)]
  {
    StyledUpToAt(sgs, ctxs, overall, m, getOpacity, z, n, n);
    assert n + 1 - 1 == n;
  }

  /** The pool after the node pass: every sub-group styled with its own context. */
  function StyleAll(sgs: seq<SubGroup>, ctxs: seq<Context>, overall: bool, m: map<string, bool>,
                    getOpacity: OpacityQuery -> real, z: int): (r: seq<SubGroup>)
    requires |sgs| <= |ctxs|
    ensures |r| == |sgs|
  {
    StyledUpTo(sgs, ctxs, overall, m, getOpacity, z, |sgs|)
  }

  lemma StyleAllAt(sgs: seq<SubGroup>, ctxs: seq<Context>, overall: bool, m: map<string, bool>,
                   getOpacity: OpacityQuery -> real, z: int, k: nat)
    requires |sgs| <= |ctxs| && k < |sgs|
    ensures StyleAll(sgs, ctxs, overall, m, getOpacity, z)[k] == Styled(sgs[k], ctxs[k], overall, m, getOpacity, z)
  {
    StyledUpToAt(sgs, ctxs, overall, m, getOpacity, z, |sgs|, k);
  }

  /** Styling changes attributes only: the sub-group keeps its structure and attaches the same nodes. */
  lemma StyledKeepsNodes(sg: SubGroup, opts: SeriesOpts, ctx: Context, overall: bool, m: map<string, bool>,
                         getOpacity: OpacityQuery -> real, z: int, mp: bool)
    requires WellFormed(sg, opts)
    ensures var r := Styled(sg, ctx, overall, m, getOpacity, z);
      WellFormed(r, opts) && RootNodes(r, mp) == RootNodes(sg, mp) && r.id == sg.id
  {
    var r := Styled(sg, ctx, overall, m, getOpacity, z);
    assert forall k :: 0 <= k < |sg.paths| ==> r.paths[k].node == sg.paths[k].node;
    forall n ensures n in PathNodeSet(sg) <==> n in PathNodeSet(r) {
      if n in PathNodeSet(sg) {
        var p :| p in sg.paths && p.node == n;
        var k :| 0 <= k < |sg.paths| && sg.paths[k] == p;
        assert r.paths[k] in r.paths;
      }
      if n in PathNodeSet(r) {
        var p :| p in r.paths && p.node == n;
        var k :| 0 <= k < |r.paths| && r.paths[k] == p;
        assert sg.paths[k] in sg.paths;
      }
    }
  }

  lemma {:induction false} StyleKeepsPool(opts: SeriesOpts, sgs: seq<SubGroup>, ctxs: seq<Context>, overall: bool,
                                          m: map<string, bool>, getOpacity: OpacityQuery -> real, z: int,
                                          counter: nat, children: seq<NodeId>)
    requires |sgs| <= |ctxs|
    requires PoolInvariant(opts, sgs, counter, children)
    ensures PoolInvariant(opts, StyleAll(sgs, ctxs, overall, m, getOpacity, z), counter, children)
  {
    var r := StyleAll(sgs, ctxs, overall, m, getOpacity, z);
    var mp := MainPath in opts.pickGroupIncludes;
    forall i | 0 <= i < |sgs|
      ensures RootNodes(sgs[i], mp) == RootNodes(r[i], mp) && WellFormed(r[i], opts) && r[i].id == sgs[i].id
    {
      StyleAllAt(sgs, ctxs, overall, m, getOpacity, z, i);
      StyledKeepsNodes(sgs[i], opts, ctxs[i], overall, m, getOpacity, z, mp);
    }
    AttachedSameNodes(sgs, r, mp);
  }

  /** The node hooks one sub-group's update calls, in order: none at all when it is hidden. */
  function NodeCalls(sg: SubGroup, i: int, ctx: Context, seriesHighlighted: Option<bool>, markers: bool): seq<HookCall>
  {
    if !sg.group.visible then []
    else
      [UpdatePathNodes(i, ctx.itemId, seriesHighlighted), UpdateDatumNodes(i, false), UpdateLabelNodes(i)]
      + (if markers && sg.markerSelection.Some? then [UpdateMarkerNodes(i, false)] else [])
  }

  /** The node hooks the node pass calls for the first `n` (already styled) sub-groups. */
  function NodePassCalls(sgs: seq<SubGroup>, ctxs: seq<Context>, seriesHighlighted: Option<bool>, markers: bool, n: nat): seq<HookCall>
    requires n <= |sgs| <= |ctxs|
  {
    if n == 0 then []
    else NodePassCalls(sgs, ctxs, seriesHighlighted, markers, n - 1) + NodeCalls(sgs[n - 1], n - 1, ctxs[n - 1], seriesHighlighted, markers)
  }

  lemma NodePassStep(sgs: seq<SubGroup>, ctxs: seq<Context>, seriesHighlighted: Option<bool>, markers: bool, n: nat)
    requires n < |sgs| <= |ctxs|
    ensures NodePassCalls(sgs, ctxs, seriesHighlighted, markers, n + 1)
            == NodePassCalls(sgs, ctxs, seriesHighlighted, markers, n) + NodeCalls(sgs[n], n, ctxs[n], seriesHighlighted, markers)
  {
    assert n + 1 - 1 == n;
  }

  /** The node hooks for the first `n` sub-groups do not depend on the sub-groups after them. */
  lemma {:induction false} NodePassUpdateAfter(sgs: seq<SubGroup>, ctxs: seq<Context>, seriesHighlighted: Option<bool>,
                                               markers: bool, n: nat, i: nat, x: SubGroup)
    requires n <= i < |sgs| <= |ctxs|
    ensures NodePassCalls(sgs[i := x], ctxs, seriesHighlighted, markers, n) == NodePassCalls(sgs, ctxs, seriesHighlighted, markers, n)
  {
    if n > 0 {
      NodePassUpdateAfter(sgs, ctxs, seriesHighlighted, markers, n - 1, i, x);
    }
  }

  /** A hidden sub-group receives no node hooks. */
  lemma {:induction false} NodePassSkipsHidden(sgs: seq<SubGroup>, ctxs: seq<Context>, sh: Option<bool>, markers: bool, n: nat)
    requires n <= |sgs| <= |ctxs|
    ensures forall a :: 0 <= a < |NodePassCalls(sgs, ctxs, sh, markers, n)| ==>
      var c := NodePassCalls(sgs, ctxs, sh, markers, n)[a];
      CallIndex(c).Some? && 0 <= CallIndex(c).value < n && sgs[CallIndex(c).value].group.visible
  {
    if n > 0 {
      NodePassSkipsHidden(sgs, ctxs, sh, markers, n - 1);
      var front := NodePassCalls(sgs, ctxs, sh, markers, n - 1);
      var last := NodeCalls(sgs[n - 1], n - 1, ctxs[n - 1], sh, markers);
      var cs := front + last;
      assert forall a :: 0 <= a < |last| ==> CallIndex(last[a]) == Some(n - 1) && sgs[n - 1].group.visible;
      forall a | 0 <= a < |cs|
        ensures CallIndex(cs[a]).Some? && 0 <= CallIndex(cs[a]).value < n && sgs[CallIndex(cs[a]).value].group.visible
      {
        if a < |front| { assert cs[a] == front[a]; } else { assert cs[a] == last[a - |front|]; }
      }
    }
  }

  /** When the series as a whole is hidden, the pooled sub-groups receive no node hooks at all. */
  lemma {:induction false} HiddenSeriesNoNodeCalls(sgs: seq<SubGroup>, ctxs: seq<Context>, m: map<string, bool>,
                                                   getOpacity: OpacityQuery -> real, z: int, sh: Option<bool>,
                                                   markers: bool, n: nat)
    requires n <= |sgs| <= |ctxs|
    ensures NodePassCalls(StyleAll(sgs, ctxs, false, m, getOpacity, z), ctxs, sh, markers, n) == []
  {
    if n > 0 {
      HiddenSeriesNoNodeCalls(sgs, ctxs, m, getOpacity, z, sh, markers, n - 1);
      StyleAllAt(sgs, ctxs, false, m, getOpacity, z, n - 1);
    }
  }

  // ---------------------------------------------------------------------------
  // Highlighting

  /** Which series the chart's highlighted datum belongs to, as seen from this series. */
  datatype SeriesRef = NoSeries | ThisSeries | OtherSeries

  datatype HighlightedDatum = HighlightedDatum(series: SeriesRef, node: NodeDatum)

  /** `series ? series === this : undefined` */
  function SeriesHighlighted(h: Option<HighlightedDatum>): (r: Option<bool>)
    ensures r == Some(true) <==> h.Some? && h.value.series == ThisSeries
    ensures r.None? <==> h.None? || h.value.series == NoSeries
  {
    match h
    case None => None
    case Some(hd) => if hd.series == NoSeries then None else Some(hd.series == ThisSeries)
  }

  /** The highlighted item, when this series is the highlighted one and the item has a source record. */
  function HighlightItem(seriesHighlighted: Option<bool>, h: Option<HighlightedDatum>): (r: Option<NodeDatum>)
    ensures r.Some? <==> seriesHighlighted == Some(true) && h.Some? && h.value.node.datum.Some?
    ensures r.Some? ==> r.value == h.value.node
  {
    if seriesHighlighted == Some(true) && h.Some? && h.value.node.datum.Some? then Some(h.value.node) else None
  }

  /** The label shown for the highlighted item. An absent context list reads as empty. */
  function HighlightLabelItem(labelEnabled: bool, item: Option<NodeDatum>, contexts: Option<seq<Context>>): (r: Option<LabelDatum>)
    ensures r.Some? ==> labelEnabled && item.Some? && LabelMatches(r.value, item.value)
                        && r.value in AllLabelData(contexts.GetOr([]))
  {
    if labelEnabled && item.Some? then FindLabel(AllLabelData(contexts.GetOr([])), item.value) else None
  }

  /**
   * The highlight label is the first label, over all contexts in order,
   * that matches the item; there is none when labels are disabled, there
   * is no item, or nothing matches.
   */
  lemma HighlightLabelIsFirstMatch(labelEnabled: bool, item: Option<NodeDatum>, contexts: Option<seq<Context>>)
    ensures !labelEnabled || item.None? ==> HighlightLabelItem(labelEnabled, item, contexts).None?
    ensures labelEnabled && item.Some? ==>
      (HighlightLabelItem(labelEnabled, item, contexts).None? <==>
       forall j :: 0 <= j < |AllLabelData(contexts.GetOr([]))| ==> !LabelMatches(AllLabelData(contexts.GetOr([]))[j], item.value))
    ensures HighlightLabelItem(labelEnabled, item, contexts).Some? ==>
      exists k :: 0 <= k < |AllLabelData(contexts.GetOr([]))|
        && AllLabelData(contexts.GetOr([]))[k] == HighlightLabelItem(labelEnabled, item, contexts).value
        && LabelMatches(AllLabelData(contexts.GetOr([]))[k], item.value)
        && forall j :: 0 <= j < k ==> !LabelMatches(AllLabelData(contexts.GetOr([]))[j], item.value)
  {
    if labelEnabled && item.Some? {
      FindLabelIsFirstMatch(AllLabelData(contexts.GetOr([])), item.value);
    }
  }

  function NodeDataOf(item: Option<NodeDatum>): seq<NodeDatum>
  {
    if item.Some? then [item.value] else []
  }

  function LabelDataOf(item: Option<LabelDatum>): seq<LabelDatum>
  {
    if item.Some? then [item.value] else []
  }

  /** The hooks the highlight update calls: the item's selection, then the label's. */
  function HighlightSelectionCalls(markers: bool, item: Option<NodeDatum>, labelItem: Option<LabelDatum>): seq<HookCall>
  {
    [if markers then UpdateMarkerSelection(-1, NodeDataOf(item)) else UpdateDatumSelection(-1, NodeDataOf(item)),
     UpdateLabelSelection(-1, LabelDataOf(labelItem))]
  }

  /** The highlight's node hooks, called on every node pass. */
  function HighlightNodeCalls(markers: bool): seq<HookCall>
  {
    [if markers then UpdateMarkerNodes(-1, true) else UpdateDatumNodes(-1, true), UpdateLabelNodes(-1)]
  }

  // ---------------------------------------------------------------------------
  // Item toggling

  /** `(visible && seriesItemEnabled.size === 0) || some entry is true` */
  function AnySeriesItemEnabled(visible: bool, m: map<string, bool>): (r: bool)
    ensures |m| == 0 ==> (r <==> visible)
    ensures !visible ==> (r <==> exists k :: k in m && m[k])
  {
    assert |m| == 0 ==> m == map[];
    (visible && |m| == 0) || exists k :: k in m && m[k]
  }

  /**
   * With no per-item entries the series' own visibility decides; once
   * there are entries only they decide, and switching one on enables the
   * series.
   */
  lemma AnySeriesItemEnabledCases(visible: bool, m: map<string, bool>, itemId: string)
    ensures |m| == 0 ==> (AnySeriesItemEnabled(visible, m) <==> visible)
    ensures |m| > 0 ==> (AnySeriesItemEnabled(visible, m) <==> AnySeriesItemEnabled(!visible, m))
    ensures AnySeriesItemEnabled(visible, m[itemId := true])
    ensures (forall k :: k in m ==> !m[k]) && |m| > 0 ==> !AnySeriesItemEnabled(visible, m)
  {
    if |m| == 0 {
      assert m == map[];
    }
    assert itemId in m[itemId := true];
  }
}
