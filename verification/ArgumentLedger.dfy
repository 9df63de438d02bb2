/** The arguments of all fields together, over any sequence of library calls: every live field has a tree of its
    own, nothing else is allocated, and every argument made is handed to its freearg once or still in use. */
module ArgumentLedger {
  import opened Arguments
  import opened FieldStore
  import opened FieldRuns

  // ----- the types of a store as trees -----

  ghost predicate Closed(types: map<Addr, TypeCell>) {
    forall u {:trigger types[u].linked} | u in types && types[u].linked ::
      types[u].left in types && types[u].right in types
  }

  /** The tree that a fieldtype unfolds to; the operands rank below it, so the unfolding ends. */
  ghost function Unfold(types: map<Addr, TypeCell>, rank: map<Addr, nat>, t: Addr): FType
    requires Ranked(types, rank) && Closed(types)
    decreases if t in types then rank[t] + 1 else 0
  {
    if t !in types then NoType
    else if types[t].linked then
      Linked(types[t].hasArgs, Unfold(types, rank, types[t].left), Unfold(types, rank, types[t].right))
    else Leaf(t, types[t].hasArgs, types[t].hasFree)
  }

  /** Types that agree on a set closed under operands unfold alike there. */
  lemma {:induction false} UnfoldSame(was: map<Addr, TypeCell>, r1: map<Addr, nat>, now: map<Addr, TypeCell>,
                                      r2: map<Addr, nat>, within: set<Addr>, t: Addr)
    requires Ranked(was, r1) && Closed(was) && Ranked(now, r2) && Closed(now)
    requires SameKinds(was, now, within)
    requires t in within || (t !in was && t !in now)
    ensures Unfold(was, r1, t) == Unfold(now, r2, t)
    decreases if t in was then r1[t] + 1 else 0
  {
    if t in within && was[t].linked {
      UnfoldSame(was, r1, now, r2, within, was[t].left);
      UnfoldSame(was, r1, now, r2, within, was[t].right);
    }
  }

  /** On the set, which holds the operands of its members, only reference counts differ. */
  ghost predicate SameKinds(was: map<Addr, TypeCell>, now: map<Addr, TypeCell>, within: set<Addr>) {
    && within <= was.Keys && within <= now.Keys
    && forall u {:trigger was[u].linked} {:trigger now[u].linked} | u in within ::
         && now[u] == was[u].(ref := now[u].ref)
         && (was[u].linked ==> was[u].left in within && was[u].right in within)
  }

  /** The unfolding does not depend on how the types are ranked. */
  ghost function TypeTree(types: map<Addr, TypeCell>, t: Addr): FType {
    if exists rank: map<Addr, nat> :: Ranked(types, rank) && Closed(types) then
      var rank: map<Addr, nat> :| Ranked(types, rank) && Closed(types);
      Unfold(types, rank, t)
    else NoType
  }

  lemma TypeTreeSame(was: map<Addr, TypeCell>, now: map<Addr, TypeCell>, within: set<Addr>, t: Addr)
    requires (exists rank: map<Addr, nat> :: Ranked(was, rank)) && Closed(was)
    requires (exists rank: map<Addr, nat> :: Ranked(now, rank)) && Closed(now)
    requires SameKinds(was, now, within) && (t in within || (t !in was && t !in now))
    ensures TypeTree(was, t) == TypeTree(now, t)
  {
    var r1: map<Addr, nat> :| Ranked(was, r1) && Closed(was) && TypeTree(was, t) == Unfold(was, r1, t);
    var r2: map<Addr, nat> :| Ranked(now, r2) && Closed(now) && TypeTree(now, t) == Unfold(now, r2, t);
    UnfoldSame(was, r1, now, r2, within, t);
  }

  lemma UnfoldUnique(types: map<Addr, TypeCell>, r1: map<Addr, nat>, r2: map<Addr, nat>, t: Addr)
    requires Ranked(types, r1) && Ranked(types, r2) && Closed(types)
    ensures Unfold(types, r1, t) == Unfold(types, r2, t)
  {
    UnfoldSame(types, r1, types, r2, types.Keys, t);
  }

  /** In every store that a run of library calls reaches, every live type unfolds, and what is made for it can be
      freed to the last node. */
  lemma LedgerInRuns(stores: seq<Store>, ops: seq<Op>, i: nat, t: Addr, nodes: map<Addr, Node>, mem: seq<Addr>,
                     user: seq<Addr>)
    returns (rank: map<Addr, nat>)
    requires Runs(stores, ops) && Initial(stores[0]) && i < |stores| && Typed(stores[i].types, t)
    requires Distinct(mem) && forall a | a in mem :: a !in nodes
    ensures TypesOk(stores[i], rank) && Closed(stores[i].types)
    ensures var typ := Unfold(stores[i].types, rank, t); var m := Make(typ, mem, user);
      Free(typ, m.res, nodes + m.added) == Freed(nodes, m.made, false)
  {
    RunKeeps(stores, ops, i);
    rank :| TypesOk(stores[i], rank);
    MakeThenFree(Unfold(stores[i].types, rank, t), nodes, mem, user);
  }

  // ----- a forest of arguments -----

  /** A field's type as a tree, its argument pointer, and the arguments made for it that its freearg has not seen. */
  datatype Entry = Entry(typ: FType, arg: Addr, live: seq<Arg>)

  const BARE := Entry(NoType, NULL, [])

  function OwnOf(e: Entry, nodes: map<Addr, Node>): set<Addr> { Own(e.typ, e.arg, nodes) }

  ghost predicate EntryOk(e: Entry, nodes: map<Addr, Node>) {
    Tree(e.typ, e.arg, nodes) && Leaves(e.typ, e.arg, nodes) == e.live && Complete(e.typ, e.arg, nodes)
  }

  /** Every entry has a complete tree, no two share a node, and there are no other nodes. */
  ghost predicate ForestOk(held: map<Addr, Entry>, nodes: map<Addr, Node>) {
    && (forall h | h in held :: EntryOk(held[h], nodes))
    && (forall h, g | h in held && g in held && h != g :: OwnOf(held[h], nodes) !! OwnOf(held[g], nodes))
    && (forall a | a in nodes :: Used(held, nodes, a))
  }

  ghost predicate Used(held: map<Addr, Entry>, nodes: map<Addr, Node>, a: Addr) {
    exists h :: h in held && a in OwnOf(held[h], nodes)
  }

  lemma EntryFrame(e: Entry, was: map<Addr, Node>, now: map<Addr, Node>)
    requires EntryOk(e, was) && forall a | a in OwnOf(e, was) :: a in now && now[a] == was[a]
    ensures EntryOk(e, now) && OwnOf(e, now) == OwnOf(e, was)
  {
    TreeFrame(e.typ, e.arg, was, now);
  }

  /** Apart from h, the entries and their trees are the same in both forests. */
  ghost predicate SameBut(held: map<Addr, Entry>, nodes: map<Addr, Node>, now: map<Addr, Entry>,
                          after: map<Addr, Node>, h: Addr) {
    && (forall g | g in held && g != h :: g in now)
    && (forall g | g in now && g != h :: g in held && now[g] == held[g]
          && EntryOk(now[g], after) && OwnOf(now[g], after) == OwnOf(held[g], nodes))
  }

  lemma StillApart(held: map<Addr, Entry>, nodes: map<Addr, Node>, now: map<Addr, Entry>, after: map<Addr, Node>,
                   h: Addr)
    requires ForestOk(held, nodes) && SameBut(held, nodes, now, after, h)
    requires h in now ==> forall g | g in held && g != h :: OwnOf(now[h], after) !! OwnOf(held[g], nodes)
    ensures forall f, g | f in now && g in now && f != g :: OwnOf(now[f], after) !! OwnOf(now[g], after)
  {
    forall f, g | f in now && g in now && f != g ensures OwnOf(now[f], after) !! OwnOf(now[g], after) {
      assert f != h ==> f in held && OwnOf(now[f], after) == OwnOf(held[f], nodes);
      assert g != h ==> g in held && OwnOf(now[g], after) == OwnOf(held[g], nodes);
    }
  }

  lemma StillUsed(held: map<Addr, Entry>, nodes: map<Addr, Node>, now: map<Addr, Entry>, after: map<Addr, Node>,
                  h: Addr, a: Addr)
    requires ForestOk(held, nodes) && SameBut(held, nodes, now, after, h)
    requires a in nodes && (h in held ==> a !in OwnOf(held[h], nodes))
    ensures Used(now, after, a)
  {
    assert Used(held, nodes, a);
    var g :| g in held && a in OwnOf(held[g], nodes);
    assert g != h && g in now && a in OwnOf(now[g], after);
  }

  /** A forest in which only h has changed. */
  lemma Regrown(held: map<Addr, Entry>, nodes: map<Addr, Node>, now: map<Addr, Entry>, after: map<Addr, Node>, h: Addr,
                mine: set<Addr>)
    requires ForestOk(held, nodes) && SameBut(held, nodes, now, after, h)
    requires if h in now then EntryOk(now[h], after) && OwnOf(now[h], after) == mine else mine == {}
    requires forall g | g in held && g != h :: mine !! OwnOf(held[g], nodes)
    requires forall a | a in after && a !in mine :: a in nodes && (h in held ==> a !in OwnOf(held[h], nodes))
    ensures ForestOk(now, after)
  {
    StillApart(held, nodes, now, after, h);
    forall a | a in after ensures Used(now, after, a) {
      if a in mine { assert a in OwnOf(now[h], after); } else { StillUsed(held, nodes, now, after, h, a); }
    }
  }

  lemma Undisturbed(held: map<Addr, Entry>, nodes: map<Addr, Node>, now: map<Addr, Entry>, after: map<Addr, Node>,
                    h: Addr)
    requires ForestOk(held, nodes) && (forall g | g in held && g != h :: g in now)
    requires forall g | g in now && g != h :: g in held && now[g] == held[g]
    requires forall g, a | g in held && g != h && a in OwnOf(held[g], nodes) :: a in after && after[a] == nodes[a]
    ensures SameBut(held, nodes, now, after, h)
  {
    forall g | g in now && g != h
      ensures EntryOk(now[g], after) && OwnOf(now[g], after) == OwnOf(held[g], nodes)
    {
      EntryFrame(held[g], nodes, after);
    }
  }

  /** Releasing an entry's argument takes exactly its tree. */
  lemma Dropped(held: map<Addr, Entry>, nodes: map<Addr, Node>, h: Addr)
    requires ForestOk(held, nodes) && h in held
    ensures Free(held[h].typ, held[h].arg, nodes) == Freed(nodes - OwnOf(held[h], nodes), held[h].live, false)
    ensures ForestOk(held[h := BARE], nodes - OwnOf(held[h], nodes))
  {
    FreeTree(held[h].typ, held[h].arg, nodes);
    var left := nodes - OwnOf(held[h], nodes);
    Undisturbed(held, nodes, held[h := BARE], left, h);
    Regrown(held, nodes, held[h := BARE], left, h, {});
  }

  /** Making an argument for a bare entry adds exactly its tree. */
  lemma Planted(held: map<Addr, Entry>, nodes: map<Addr, Node>, h: Addr, t: FType, mem: seq<Addr>, user: seq<Addr>)
    requires ForestOk(held, nodes) && h in held && held[h] == BARE
    requires Distinct(mem) && (forall a | a in mem :: a !in nodes) && Make(t, mem, user).err == 0
    ensures var m := Make(t, mem, user); ForestOk(held[h := Entry(t, m.res, m.made)], nodes + m.added)
  {
    var m := Make(t, mem, user);
    var e, grown := Entry(t, m.res, m.made), nodes + m.added;
    MadeFrom(t, mem, user);
    MakeTree(t, mem, user);
    EntryFrame(e, m.added, grown);
    Undisturbed(held, nodes, held[h := e], grown, h);
    forall g | g in held ensures m.added.Keys !! OwnOf(held[g], nodes) { assert OwnOf(held[g], nodes) <= nodes.Keys; }
    Regrown(held, nodes, held[h := e], grown, h, m.added.Keys);
  }

  /** A new entry whose type has no arguments. */
  lemma Sprouted(held: map<Addr, Entry>, nodes: map<Addr, Node>, h: Addr, t: FType)
    requires ForestOk(held, nodes) && h !in held && !HasArgs(t)
    ensures ForestOk(held[h := Entry(t, NULL, [])], nodes)
  {
    Undisturbed(held, nodes, held[h := Entry(t, NULL, [])], nodes, h);
    Regrown(held, nodes, held[h := Entry(t, NULL, [])], nodes, h, {});
  }

  lemma Felled(held: map<Addr, Entry>, nodes: map<Addr, Node>, h: Addr)
    requires ForestOk(held, nodes) && h in held && held[h] == BARE
    ensures ForestOk(held - {h}, nodes)
  {
    Undisturbed(held, nodes, held - {h}, nodes, h);
    Regrown(held, nodes, held - {h}, nodes, h, {});
  }

  // ----- arguments not yet handed back -----

  ghost function Pick(held: map<Addr, Entry>): (h: Addr)
    requires held != map[]
    ensures h in held
  {
    assert held.Keys != {};
    var h :| h in held;
    h
  }

  ghost function Outstanding(held: map<Addr, Entry>): multiset<Arg>
    decreases |held|
  {
    if held == map[] then multiset{}
    else var h := Pick(held); multiset(held[h].live) + Outstanding(held - {h})
  }

  lemma {:induction false} OutstandingTake(held: map<Addr, Entry>, g: Addr)
    requires g in held
    ensures Outstanding(held) == multiset(held[g].live) + Outstanding(held - {g})
    decreases |held|
  {
    var h := Pick(held);
    if h != g {
      var both := held - {h, g};
      assert held - {h} - {g} == both == held - {g} - {h};
      OutstandingTake(held - {h}, g);
      OutstandingTake(held - {g}, h);
      calc {
        Outstanding(held);
        multiset(held[h].live) + (multiset(held[g].live) + Outstanding(both));
        multiset(held[g].live) + (multiset(held[h].live) + Outstanding(both));
      }
    }
  }

  lemma OutstandingPut(held: map<Addr, Entry>, g: Addr, e: Entry)
    requires g in held
    ensures Outstanding(held[g := e]) + multiset(held[g].live) == Outstanding(held) + multiset(e.live)
  {
    OutstandingTake(held, g);
    OutstandingTake(held[g := e], g);
    assert held[g := e] - {g} == held - {g};
  }

  lemma OutstandingAdd(held: map<Addr, Entry>, g: Addr, e: Entry)
    requires g !in held
    ensures Outstanding(held[g := e]) == Outstanding(held) + multiset(e.live)
  {
    OutstandingTake(held[g := e], g);
    assert held[g := e] - {g} == held;
  }
}
