/** Reference counts of fieldtypes, through every call that changes who refers to what. */
module FieldRefs {
  import opened FieldStore

  function One(b: bool): int { if b then 1 else 0 }

  /** Writing one field cell changes its old type's holders and its new type's, by one each. */
  lemma HoldersPut(fields: map<Addr, FieldCell>, a: Addr, c: FieldCell, t: Addr)
    ensures |Holders(fields[a := c], t)| ==
            |Holders(fields, t)| - One(a in fields && fields[a].typ == t) + One(c.typ == t)
  {
    var rest := Holders(fields, t) - {a};
    assert Holders(fields[a := c], t) == if c.typ == t then rest + {a} else rest;
    assert Holders(fields, t) == if a in fields && fields[a].typ == t then rest + {a} else rest;
  }

  lemma HoldersBypassed(fields: map<Addr, FieldCell>, f: Addr, t: Addr)
    requires f in fields
    ensures |Holders(Bypassed(fields, f), t)| == |Holders(fields, t)| - One(fields[f].typ == t)
  {
    assert Holders(Bypassed(fields, f), t) == Holders(fields, t) - {f};
  }

  /** The fields let go of the types in `down` and take up those in `up`. */
  ghost predicate HoldersMoved(was: map<Addr, FieldCell>, now: map<Addr, FieldCell>, down: multiset<Addr>,
                               up: multiset<Addr>) {
    forall t: Addr :: |Holders(now, t)| == |Holders(was, t)| - down[t] + up[t]
  }

  /** The operands are the same, and the counts differ by the number of times the type is in `up` less those it
      is in `down`. */
  ghost predicate Recounted(was: map<Addr, TypeCell>, now: map<Addr, TypeCell>, down: multiset<Addr>,
                            up: multiset<Addr>) {
    && now.Keys == was.Keys
    && forall t | t in was ::
         && now[t].ref == was[t].ref - down[t] + up[t]
         && now[t].linked == was[t].linked && now[t].left == was[t].left && now[t].right == was[t].right
         && now[t].resident == was[t].resident
  }

  lemma Counts(types: map<Addr, TypeCell>, t: Addr, n: int)
    requires NULL !in types
    ensures Counted(types, t, n).Keys == types.Keys
    ensures forall u | u in types :: Counted(types, t, n)[u] == types[u].(ref := types[u].ref + if u == t then n else 0)
  {
  }

  lemma CountedOnce(types: map<Addr, TypeCell>, t: Addr)
    requires NULL !in types
    ensures Recounted(types, Counted(types, t, 1), multiset{}, multiset{t})
    ensures Recounted(types, Counted(types, t, -1), multiset{t}, multiset{})
  {
    Counts(types, t, 1);
    Counts(types, t, -1);
  }

  lemma CountedMoved(types: map<Addr, TypeCell>, t: Addr, u: Addr)
    requires NULL !in types
    ensures Recounted(types, Counted(Counted(types, t, -1), u, 1), multiset{t}, multiset{u})
  {
    Counts(types, t, -1);
    Counts(Counted(types, t, -1), u, 1);
  }

  lemma CountedBothUp(types: map<Addr, TypeCell>, t: Addr, u: Addr)
    requires NULL !in types
    ensures Recounted(types, Counted(Counted(types, t, 1), u, 1), multiset{}, multiset{t, u})
  {
    Counts(types, t, 1);
    Counts(Counted(types, t, 1), u, 1);
  }

  lemma CountedBothDown(types: map<Addr, TypeCell>, t: Addr, u: Addr)
    requires NULL !in types
    ensures Recounted(types, Counted(Counted(types, t, -1), u, -1), multiset{t, u}, multiset{})
  {
    Counts(types, t, -1);
    Counts(Counted(types, t, -1), u, -1);
  }

  lemma SameLefts(was: map<Addr, TypeCell>, now: map<Addr, TypeCell>, down: multiset<Addr>, up: multiset<Addr>, u: Addr)
    requires Recounted(was, now, down, up)
    ensures Lefts(now, u) == Lefts(was, u)
  {
  }

  lemma SameRights(was: map<Addr, TypeCell>, now: map<Addr, TypeCell>, down: multiset<Addr>, up: multiset<Addr>,
                   u: Addr)
    requires Recounted(was, now, down, up)
    ensures Rights(now, u) == Rights(was, u)
  {
  }

  /** If fields let go of `down` and take up `up`, recounting these keeps the counts exact. */
  lemma FieldsRecount(s: Store, now: Store, down: multiset<Addr>, up: multiset<Addr>)
    requires RefsExact(s) && Recounted(s.types, now.types, down, up)
    requires HoldersMoved(s.fields, now.fields, down, up) && now.defType == s.defType
    ensures RefsExact(now)
  {
    forall t | t in now.types ensures now.types[t].ref == References(now, t) {
      SameLefts(s.types, now.types, down, up, t);
      SameRights(s.types, now.types, down, up, t);
      assert s.types[t].ref == References(s, t);
    }
  }

  /** The same for the default field. */
  lemma DefaultRecount(s: Store, now: Store)
    requires RefsExact(s) && Recounted(s.types, now.types, multiset{s.defType}, multiset{now.defType})
    requires now.fields == s.fields
    ensures RefsExact(now)
  {
    forall t | t in now.types ensures now.types[t].ref == References(now, t) {
      SameLefts(s.types, now.types, multiset{s.defType}, multiset{now.defType}, t);
      SameRights(s.types, now.types, multiset{s.defType}, multiset{now.defType}, t);
      assert s.types[t].ref == References(s, t);
    }
  }

  // ----- fields -----

  lemma RecountedGraph(was: map<Addr, TypeCell>, now: map<Addr, TypeCell>, down: multiset<Addr>, up: multiset<Addr>,
                       rank: map<Addr, nat>)
    requires Recounted(was, now, down, up) && Ranked(was, rank)
    ensures Ranked(now, rank)
  {
  }

  lemma Undangled(s: Store, now: Store, down: multiset<Addr>, up: multiset<Addr>)
    requires NoDangling(s) && Recounted(s.types, now.types, down, up)
    requires Typed(s.types, now.defType) && AllTyped(now.fields, s.types)
    ensures NoDangling(now)
  {
    forall f | f in now.fields ensures Typed(now.types, now.fields[f].typ) { assert Typed(s.types, now.fields[f].typ); }
  }

  lemma PutTyped(fields: map<Addr, FieldCell>, types: map<Addr, TypeCell>, f: Addr, cell: FieldCell)
    requires AllTyped(fields, types) && Typed(types, cell.typ)
    ensures AllTyped(fields[f := cell], types)
  {
  }

  lemma BypassedTyped(fields: map<Addr, FieldCell>, types: map<Addr, TypeCell>, f: Addr)
    requires AllTyped(fields, types) && f in fields
    ensures AllTyped(Bypassed(fields, f), types)
  {
  }

  /** The type a field had, if there was such a field. */
  function TypeAt(fields: map<Addr, FieldCell>, f: Addr): multiset<Addr> {
    if f in fields then multiset{fields[f].typ} else multiset{}
  }

  lemma PutMoved(fields: map<Addr, FieldCell>, f: Addr, cell: FieldCell)
    ensures HoldersMoved(fields, fields[f := cell], TypeAt(fields, f), multiset{cell.typ})
  {
    forall t: Addr { HoldersPut(fields, f, cell, t); }
  }

  lemma BypassedMoved(fields: map<Addr, FieldCell>, f: Addr)
    requires f in fields
    ensures HoldersMoved(fields, Bypassed(fields, f), multiset{fields[f].typ}, multiset{})
  {
    forall t: Addr { HoldersBypassed(fields, f, t); }
  }

  /** Types stay in order when one field cell is written and the types are recounted accordingly. */
  lemma PutTypesOk(s: Store, now: Store, f: Addr, cell: FieldCell, rank: map<Addr, nat>)
    requires TypesOk(s, rank) && Typed(s.types, cell.typ)
    requires now.fields == s.fields[f := cell] && now.defType == s.defType
    requires Recounted(s.types, now.types, TypeAt(s.fields, f), multiset{cell.typ})
    ensures TypesOk(now, rank)
  {
    PutMoved(s.fields, f, cell);
    FieldsRecount(s, now, TypeAt(s.fields, f), multiset{cell.typ});
    RecountedGraph(s.types, now.types, TypeAt(s.fields, f), multiset{cell.typ}, rank);
    PutTyped(s.fields, s.types, f, cell);
    Undangled(s, now, TypeAt(s.fields, f), multiset{cell.typ});
  }

  lemma BypassedTypesOk(s: Store, now: Store, f: Addr, rank: map<Addr, nat>)
    requires TypesOk(s, rank) && f in s.fields
    requires now.fields == Bypassed(s.fields, f) && now.defType == s.defType
    requires Recounted(s.types, now.types, multiset{s.fields[f].typ}, multiset{})
    ensures TypesOk(now, rank)
  {
    var typ := s.fields[f].typ;
    BypassedMoved(s.fields, f);
    FieldsRecount(s, now, multiset{typ}, multiset{});
    RecountedGraph(s.types, now.types, multiset{typ}, multiset{}, rank);
    BypassedTyped(s.fields, s.types, f);
    Undangled(s, now, multiset{typ}, multiset{});
  }

  // ----- new and freed types -----

  lemma LeftsPut(types: map<Addr, TypeCell>, at: Addr, cell: TypeCell, u: Addr)
    requires at !in types
    ensures |Lefts(types[at := cell], u)| == |Lefts(types, u)| + One(cell.linked && cell.left == u)
  {
    var now, rest := types[at := cell], Lefts(types, u);
    assert at !in rest;
    assert Lefts(now, u) == if cell.linked && cell.left == u then rest + {at} else rest;
  }

  lemma RightsPut(types: map<Addr, TypeCell>, at: Addr, cell: TypeCell, u: Addr)
    requires at !in types
    ensures |Rights(types[at := cell], u)| == |Rights(types, u)| + One(cell.linked && cell.right == u)
  {
    var now, rest := types[at := cell], Rights(types, u);
    assert at !in rest;
    assert Rights(now, u) == if cell.linked && cell.right == u then rest + {at} else rest;
  }

  lemma LeftsDropped(types: map<Addr, TypeCell>, t: Addr, u: Addr)
    requires t in types
    ensures |Lefts(types - {t}, u)| == |Lefts(types, u)| - One(types[t].linked && types[t].left == u)
  {
    assert Lefts(types - {t}, u) == Lefts(types, u) - {t};
  }

  lemma RightsDropped(types: map<Addr, TypeCell>, t: Addr, u: Addr)
    requires t in types
    ensures |Rights(types - {t}, u)| == |Rights(types, u)| - One(types[t].linked && types[t].right == u)
  {
    assert Rights(types - {t}, u) == Rights(types, u) - {t};
  }

  /** Nothing refers to an address that is not a type's. */
  lemma Unreferenced(s: Store, t: Addr)
    requires NoDangling(s) && t !in s.types && t != NULL
    ensures Holders(s.fields, t) == {} && Lefts(s.types, t) == {} && Rights(s.types, t) == {} && s.defType != t
  {
  }

  function Operands(c: TypeCell): multiset<Addr> {
    if c.linked then multiset{c.left, c.right} else multiset{}
  }

  /** A new type has no references yet; a linked one is a reference to each of its operands. */
  lemma TypeAdded(s: Store, now: Store, at: Addr, cell: TypeCell, counted: map<Addr, TypeCell>)
    requires NoDangling(s) && RefsExact(s) && at !in s.types && at != NULL && cell.ref == 0 && !cell.resident
    requires cell.linked ==> cell.left in s.types && cell.right in s.types
    requires Recounted(s.types, counted, multiset{}, Operands(cell)) && now == s.(types := counted[at := cell])
    ensures NoDangling(now) && RefsExact(now)
  {
    AddedUndangled(s, now, at, cell, counted);
    forall t | t in now.types ensures now.types[t].ref == References(now, t) {
      if t == at { NewUnreferenced(s, now, at, cell, counted); } else { TypeAddedAt(s, now, at, cell, counted, t); }
    }
  }

  lemma AddedUndangled(s: Store, now: Store, at: Addr, cell: TypeCell, counted: map<Addr, TypeCell>)
    requires NoDangling(s) && at !in s.types && at != NULL
    requires cell.linked ==> cell.left in s.types && cell.right in s.types
    requires Recounted(s.types, counted, multiset{}, Operands(cell)) && now == s.(types := counted[at := cell])
    ensures NoDangling(now)
  {
  }

  lemma NewUnreferenced(s: Store, now: Store, at: Addr, cell: TypeCell, counted: map<Addr, TypeCell>)
    requires NoDangling(s) && at !in s.types && at != NULL && !cell.resident
    requires cell.linked ==> cell.left in s.types && cell.right in s.types
    requires Recounted(s.types, counted, multiset{}, Operands(cell)) && now == s.(types := counted[at := cell])
    ensures References(now, at) == 0
  {
    Unreferenced(s, at);
    OperandsPut(s.types, counted, at, cell, at);
  }

  lemma TypeAddedAt(s: Store, now: Store, at: Addr, cell: TypeCell, counted: map<Addr, TypeCell>, t: Addr)
    requires RefsExact(s) && at !in s.types && t in s.types
    requires Recounted(s.types, counted, multiset{}, Operands(cell)) && now == s.(types := counted[at := cell])
    ensures now.types[t].ref == References(now, t)
  {
    OperandsPut(s.types, counted, at, cell, t);
    assert s.types[t].ref == References(s, t);
  }

  lemma OperandsPut(types: map<Addr, TypeCell>, counted: map<Addr, TypeCell>, at: Addr, cell: TypeCell, u: Addr)
    requires at !in types && Recounted(types, counted, multiset{}, Operands(cell))
    ensures |Lefts(counted[at := cell], u)| + |Rights(counted[at := cell], u)|
            == |Lefts(types, u)| + |Rights(types, u)| + Operands(cell)[u]
  {
    SameLefts(types, counted, multiset{}, Operands(cell), u);
    SameRights(types, counted, multiset{}, Operands(cell), u);
    LeftsPut(counted, at, cell, u);
    RightsPut(counted, at, cell, u);
  }

  lemma OperandsDropped(types: map<Addr, TypeCell>, counted: map<Addr, TypeCell>, t: Addr, u: Addr)
    requires t in types && Recounted(types, counted, Operands(types[t]), multiset{})
    ensures |Lefts(counted - {t}, u)| + |Rights(counted - {t}, u)|
            == |Lefts(types, u)| + |Rights(types, u)| - Operands(types[t])[u]
  {
    SameLefts(types, counted, Operands(types[t]), multiset{}, u);
    SameRights(types, counted, Operands(types[t]), multiset{}, u);
    LeftsDropped(counted, t, u);
    RightsDropped(counted, t, u);
  }

  /** A type without references can go: its operands lose one reference each, and nothing dangles. */
  lemma TypeDropped(s: Store, now: Store, t: Addr, counted: map<Addr, TypeCell>)
    requires NoDangling(s) && RefsExact(s) && t in s.types && s.types[t].ref == 0
    requires Recounted(s.types, counted, Operands(s.types[t]), multiset{}) && now == s.(types := counted - {t})
    ensures NoDangling(now) && RefsExact(now)
  {
    NobodyHolds(s, t);
    DroppedUndangled(s, now, t, counted);
    forall u | u in now.types ensures now.types[u].ref == References(now, u) {
      TypeDroppedAt(s, now, t, counted, u);
    }
  }

  lemma DroppedUndangled(s: Store, now: Store, t: Addr, counted: map<Addr, TypeCell>)
    requires NoDangling(s) && s.defType != t && forall f | f in s.fields :: s.fields[f].typ != t
    requires forall u | u in s.types && s.types[u].linked :: s.types[u].left != t && s.types[u].right != t
    requires t in s.types && Recounted(s.types, counted, Operands(s.types[t]), multiset{})
    requires now == s.(types := counted - {t})
    ensures NoDangling(now)
  {
  }

  lemma TypeDroppedAt(s: Store, now: Store, t: Addr, counted: map<Addr, TypeCell>, u: Addr)
    requires RefsExact(s) && t in s.types
    requires Recounted(s.types, counted, Operands(s.types[t]), multiset{}) && now == s.(types := counted - {t})
    requires u in now.types
    ensures now.types[u].ref == References(now, u)
  {
    OperandsDropped(s.types, counted, t, u);
    assert s.types[u].ref == References(s, u);
  }

  /** A count of zero means that no field, default field or linked type refers to the type. */
  lemma NobodyHolds(s: Store, t: Addr)
    requires RefsExact(s) && t in s.types && s.types[t].ref == 0
    ensures s.defType != t && !s.types[t].resident
    ensures forall f | f in s.fields :: s.fields[f].typ != t
    ensures forall u | u in s.types && s.types[u].linked :: s.types[u].left != t && s.types[u].right != t
  {
    assert References(s, t) == 0;
    assert Holders(s.fields, t) == {} && Lefts(s.types, t) == {} && Rights(s.types, t) == {};
    forall f | f in s.fields ensures s.fields[f].typ != t { assert f !in Holders(s.fields, t); }
    forall u | u in s.types && s.types[u].linked ensures s.types[u].left != t && s.types[u].right != t {
      assert u !in Lefts(s.types, t) && u !in Rights(s.types, t);
    }
  }

  // ----- the order of types -----

  function Max(a: nat, b: nat): nat { if a < b then b else a }

  /** A new type ranks above its operands. */
  lemma RankAdded(types: map<Addr, TypeCell>, rank: map<Addr, nat>, at: Addr, cell: TypeCell)
    returns (after: map<Addr, nat>)
    requires Ranked(types, rank) && at !in types
    requires forall u | u in types && types[u].linked :: types[u].left in types && types[u].right in types
    requires cell.linked ==> cell.left in types && cell.right in types
    ensures Ranked(types[at := cell], after)
  {
    after := rank[at := if cell.linked then Max(rank[cell.left], rank[cell.right]) + 1 else 0];
  }

  /** The graph of operands does not depend on the counts. */
  lemma RankSame(was: map<Addr, TypeCell>, now: map<Addr, TypeCell>, rank: map<Addr, nat>)
    requires Ranked(was, rank)
    requires forall t | t in now :: t in was && now[t].linked == was[t].linked
                                 && now[t].left == was[t].left && now[t].right == was[t].right
    ensures Ranked(now, rank)
  {
  }
}
