/** Field and fieldtype calls together with the arguments they make and release. */
module ArgumentRuns {
  import opened ArgumentLedger
  import opened Arguments
  import opened FormBase
  import opened FieldStore
  import opened FieldRefs
  import opened FieldRuns

  /** The store; what every field holds, and the default field under the null address; the argument nodes; and
      the histories of makearg results and of freearg calls. */
  datatype Ledger = Ledger(s: Store, held: map<Addr, Entry>, nodes: map<Addr, Node>, made: seq<Arg>, calls: seq<Arg>,
                           fault: bool)

  function HolderType(s: Store, h: Addr): Addr {
    if h == NULL then s.defType else if h in s.fields then s.fields[h].typ else NULL
  }

  // ----- the steps -----

  /** The argument part of _nc_Free_Type. */
  ghost function Released(l: Ledger, h: Addr): Ledger
    requires h in l.held
  {
    var f := Free(TypeTree(l.s.types, HolderType(l.s, h)), l.held[h].arg, l.nodes);
    l.(held := l.held[h := BARE], nodes := f.nodes, calls := l.calls + f.calls, fault := l.fault || f.fault)
  }

  /** Making the arguments of type t for a holder that has none, and releasing them if anything fails. */
  ghost function Attached(l: Ledger, h: Addr, t: Addr, mem: seq<Addr>, user: seq<Addr>): Ledger
    requires h in l.held
  {
    var typ := TypeTree(l.s.types, t);
    var m := Make(typ, mem, user);
    var tried := l.(nodes := l.nodes + m.added, made := l.made + m.made);
    if m.err == 0 then tried.(held := l.held[h := Entry(typ, m.res, m.made)])
    else
      var f := Free(typ, m.res, tried.nodes);
      tried.(nodes := f.nodes, calls := l.calls + f.calls, fault := l.fault || f.fault)
  }

  /** One call: set_field_type finds out by making the arguments whether they can be made. */
  ghost function Step(l: Ledger, op: Op, mem: seq<Addr>, user: seq<Addr>): Ledger
    requires Permitted(l, op, mem)
  {
    match op
    case SetFieldType(f, t, _) =>
      var ok := Make(TypeTree(l.s.types, t), mem, user).err == 0;
      Attached(Released(l, f), f, t, mem, user).(s := TypeSet(l.s, f, t, ok).store)
    case FreeField(f) =>
      var o := FieldFreed(l.s, f);
      if o.err == E_OK then var r := Released(l, f); r.(s := o.store, held := r.held - {f}) else l.(s := o.store)
    case NewField(_, _, _, _) => Copied(l, Do(l.s, op), l.s.defType)
    case DupField(f, _, _, _, _, _, _) => Copied(l, Do(l.s, op), HolderType(l.s, f))
    case LinkField(f, _, _, _, _) => Copied(l, Do(l.s, op), HolderType(l.s, f))
    case _ => l.(s := Do(l.s, op).store)
  }

  /** A new field with a type that has no arguments to copy. */
  ghost function Copied(l: Ledger, o: Outcome, t: Addr): Ledger {
    if o.err == E_OK then l.(s := o.store, held := l.held[o.ptr := Entry(TypeTree(l.s.types, t), NULL, [])])
    else l.(s := o.store)
  }

  predicate Plain(s: Store, t: Addr) { t in s.types ==> !s.types[t].hasArgs }

  /** The call is allowed, copies no arguments, gives none to a type in use, and its allocations are fresh. */
  ghost predicate Permitted(l: Ledger, op: Op, mem: seq<Addr>) {
    && l.held.Keys == l.s.fields.Keys + {NULL} && Allowed(l.s, op)
    && match op
       case NewField(_, _, _, _) => Plain(l.s, l.s.defType)
       case DupField(f, _, _, _, _, _, _) => Plain(l.s, HolderType(l.s, f))
       case LinkField(f, _, _, _, _) => Plain(l.s, HolderType(l.s, f))
       case SetFieldType(f, _, _) => Distinct(mem) && forall a | a in mem :: a !in Released(l, f).nodes
       case SetFieldtypeArg(t, _) => l.s.types[t].ref == 0
       case _ => true
  }

  // ----- the types keep their trees -----

  lemma StoreTypes(s: Store)
    requires TypesSound(s)
    ensures (exists rank: map<Addr, nat> :: Ranked(s.types, rank)) && Closed(s.types) && NULL !in s.types
    ensures AllTyped(s.fields, s.types) && Typed(s.types, s.defType) && RefsExact(s)
  {
    var rank :| TypesOk(s, rank);
  }

  lemma CountedKinds(types: map<Addr, TypeCell>, t: Addr, n: int, within: set<Addr>)
    requires within <= types.Keys && SameKinds(types, types, within)
    ensures SameKinds(types, Counted(types, t, n), within)
    ensures SameKinds(Counted(types, t, n), Counted(types, t, n), within)
  {
  }

  lemma KindsTransitive(a: map<Addr, TypeCell>, b: map<Addr, TypeCell>, c: map<Addr, TypeCell>, within: set<Addr>)
    requires SameKinds(a, b, within) && SameKinds(b, c, within)
    ensures SameKinds(a, c, within)
  {
    forall u {:trigger a[u].linked} {:trigger c[u].linked} | u in within
      ensures c[u] == a[u].(ref := c[u].ref) && (a[u].linked ==> a[u].left in within && a[u].right in within)
    {
      assert b[u].linked == a[u].linked;
    }
  }

  lemma CountedTwiceKinds(types: map<Addr, TypeCell>, t: Addr, n: int, u: Addr, m: int, within: set<Addr>)
    requires within <= types.Keys && SameKinds(types, types, within)
    ensures SameKinds(types, Counted(Counted(types, t, n), u, m), within)
  {
    CountedKinds(types, t, n, within);
    CountedKinds(Counted(types, t, n), u, m, within);
    KindsTransitive(types, Counted(types, t, n), Counted(Counted(types, t, n), u, m), within);
  }

  /** The types that a call leaves as they are but for their counts. */
  function Kept(s: Store, op: Op): set<Addr>
    requires Allowed(s, op)
  {
    match op
    case FreeFieldtype(t) => if TypeFreed(s, t).err == E_OK then s.types.Keys - {t} else s.types.Keys
    case SetFieldtypeArg(t, _) => s.types.Keys - {t}
    case _ => s.types.Keys
  }

  lemma KindsKept(s: Store, op: Op)
    requires TypesSound(s) && Allowed(s, op) && (op.SetFieldtypeArg? ==> s.types[op.t].ref == 0)
    ensures SameKinds(s.types, Do(s, op).store.types, Kept(s, op))
  {
    StoreTypes(s);
    assert SameKinds(s.types, s.types, s.types.Keys);
    match op
    case FreeFieldtype(t) => if TypeFreed(s, t).err == E_OK { FreedKinds(s, t); }
    case SetFieldtypeArg(t, hasFree) =>
      NobodyHolds(s, t);
      ArgsKinds(s.types, t, hasFree);
    case LinkFieldtype(t1, t2, at) => LinkedKinds(s, t1, t2, at);
    case SetFieldType(f, t, made) =>
      var now := if ArgsReady(s.types, t, made) then t else NULL;
      CountedTwiceKinds(s.types, HolderType(s, f), -1, now, 1, s.types.Keys);
    case NewFieldtype(_, _) =>
    case SetOwner(_, _) =>
    case _ => FieldKinds(s, op);
  }

  lemma FieldKinds(s: Store, op: Op)
    requires Closed(s.types) && Allowed(s, op)
    requires op.NewField? || op.DupField? || op.LinkField? || op.FreeField?
    ensures SameKinds(s.types, Do(s, op).store.types, s.types.Keys)
  {
    assert SameKinds(s.types, s.types, s.types.Keys);
    var t := if op.NewField? then s.defType else HolderType(s, op.f);
    CountedKinds(s.types, t, if op.FreeField? then -1 else 1, s.types.Keys);
  }

  /** What any holder refers to is among the types left as they are. */
  lemma HoldersKept(s: Store, op: Op, h: Addr)
    requires TypesSound(s) && Allowed(s, op) && (op.SetFieldtypeArg? ==> s.types[op.t].ref == 0)
    ensures HolderType(s, h) == NULL || HolderType(s, h) in Kept(s, op)
  {
    StoreTypes(s);
    if h in s.fields { assert Typed(s.types, s.fields[h].typ); }
    if op.FreeFieldtype? && TypeFreed(s, op.t).err == E_OK { FreedKinds(s, op.t); }
    if op.SetFieldtypeArg? { NobodyHolds(s, op.t); }
  }

  lemma FreedKinds(s: Store, t: Addr)
    requires TypesSound(s) && t in s.types && t != NULL && TypeFreed(s, t).err == E_OK
    ensures SameKinds(s.types, TypeFreed(s, t).store.types, s.types.Keys - {t})
    ensures s.defType != t && forall f | f in s.fields :: s.fields[f].typ != t
  {
    StoreTypes(s);
    NobodyHolds(s, t);
    var c, within := s.types[t], s.types.Keys - {t};
    assert SameKinds(s.types, s.types, within);
    CountedTwiceKinds(s.types, c.left, -1, c.right, -1, within);
  }

  lemma ArgsKinds(types: map<Addr, TypeCell>, t: Addr, hasFree: bool)
    requires t in types && Closed(types)
    requires forall u {:trigger types[u].linked} | u in types && types[u].linked ::
      types[u].left != t && types[u].right != t
    ensures SameKinds(types, ArgsGiven(types, t, hasFree), types.Keys - {t})
  {
  }

  lemma LinkedKinds(s: Store, t1: Addr, t2: Addr, at: Addr)
    requires Closed(s.types) && at !in s.types && (t1 == NULL || t1 in s.types) && (t2 == NULL || t2 in s.types)
    ensures SameKinds(s.types, TypesLinked(s, t1, t2, at).store.types, s.types.Keys)
  {
    assert SameKinds(s.types, s.types, s.types.Keys);
    CountedTwiceKinds(s.types, t1, 1, t2, 1, s.types.Keys);
  }

  /** A type that a call leaves alone unfolds to the same tree afterwards. */
  lemma TreeKept(s: Store, op: Op, t: Addr)
    requires TypesSound(s) && Allowed(s, op) && (op.SetFieldtypeArg? ==> s.types[op.t].ref == 0)
    requires t == NULL || t in Kept(s, op)
    ensures TypeTree(Do(s, op).store.types, t) == TypeTree(s.types, t)
  {
    KindsKept(s, op);
    DoKeepsTypes(s, op);
    StoreTypes(s);
    StoreTypes(Do(s, op).store);
    TypeTreeSame(s.types, Do(s, op).store.types, Kept(s, op), t);
  }

  // ----- the ledger stays balanced -----

  /** Nothing is used after it is freed, the nodes are the fields' trees, and every argument made has been handed
      back or is outstanding. */
  ghost predicate Balanced(l: Ledger) {
    && !l.fault && ForestOk(l.held, l.nodes)
    && multiset(l.made) == multiset(l.calls) + Outstanding(l.held)
  }

  /** What the ledger knows of a holder's type is what the store says. */
  ghost predicate Matches(l: Ledger) {
    && l.held.Keys == l.s.fields.Keys + {NULL}
    && forall h | h in l.held :: l.held[h].typ == TypeTree(l.s.types, HolderType(l.s, h))
  }

  ghost predicate LedgerOk(l: Ledger) {
    Sound(l.s) && Matches(l) && Balanced(l)
  }

  lemma HandedBack(made: seq<Arg>, calls: seq<Arg>, live: seq<Arg>, before: multiset<Arg>, after: multiset<Arg>)
    requires multiset(made) == multiset(calls) + before && after + multiset(live) == before
    ensures multiset(made) == multiset(calls + live) + after
  {
  }

  lemma MadeAnew(made: seq<Arg>, calls: seq<Arg>, more: seq<Arg>, before: multiset<Arg>, after: multiset<Arg>)
    requires multiset(made) == multiset(calls) + before && after == before + multiset(more)
    ensures multiset(made + more) == multiset(calls) + after
  {
  }

  lemma ReleasedBalanced(l: Ledger, h: Addr)
    requires Balanced(l) && h in l.held && l.held[h].typ == TypeTree(l.s.types, HolderType(l.s, h))
    ensures Balanced(Released(l, h))
  {
    Dropped(l.held, l.nodes, h);
    OutstandingPut(l.held, h, BARE);
    HandedBack(l.made, l.calls, l.held[h].live, Outstanding(l.held), Outstanding(l.held[h := BARE]));
  }

  lemma AttachedBalanced(l: Ledger, h: Addr, t: Addr, mem: seq<Addr>, user: seq<Addr>)
    requires Balanced(l) && h in l.held && l.held[h] == BARE
    requires Distinct(mem) && forall a | a in mem :: a !in l.nodes
    ensures Balanced(Attached(l, h, t, mem, user))
  {
    var typ := TypeTree(l.s.types, t);
    var m := Make(typ, mem, user);
    if m.err == 0 { AttachedWhole(l, h, typ, mem, user); } else { AttachedNothing(l, typ, mem, user); }
  }

  lemma AttachedWhole(l: Ledger, h: Addr, typ: FType, mem: seq<Addr>, user: seq<Addr>)
    requires Balanced(l) && h in l.held && l.held[h] == BARE && Make(typ, mem, user).err == 0
    requires Distinct(mem) && forall a | a in mem :: a !in l.nodes
    ensures var m := Make(typ, mem, user);
      Balanced(l.(held := l.held[h := Entry(typ, m.res, m.made)], nodes := l.nodes + m.added, made := l.made + m.made))
  {
    var m := Make(typ, mem, user);
    var e := Entry(typ, m.res, m.made);
    Planted(l.held, l.nodes, h, typ, mem, user);
    OutstandingPut(l.held, h, e);
    MadeAnew(l.made, l.calls, m.made, Outstanding(l.held), Outstanding(l.held[h := e]));
  }

  lemma AttachedNothing(l: Ledger, typ: FType, mem: seq<Addr>, user: seq<Addr>)
    requires Balanced(l) && Distinct(mem) && forall a | a in mem :: a !in l.nodes
    ensures var m := Make(typ, mem, user); var f := Free(typ, m.res, l.nodes + m.added);
      Balanced(l.(nodes := f.nodes, made := l.made + m.made, calls := l.calls + f.calls, fault := l.fault || f.fault))
  {
    var m := Make(typ, mem, user);
    MakeThenFree(typ, l.nodes, mem, user);
    assert multiset(l.made + m.made) == multiset(l.calls + m.made) + Outstanding(l.held);
  }

  lemma PlainTree(s: Store, t: Addr)
    requires TypesSound(s) && Plain(s, t)
    ensures !HasArgs(TypeTree(s.types, t))
  {
    StoreTypes(s);
    var rank: map<Addr, nat> :| Ranked(s.types, rank) && Closed(s.types)
      && TypeTree(s.types, t) == Unfold(s.types, rank, t);
  }

  lemma NoTree(types: map<Addr, TypeCell>)
    requires (exists rank: map<Addr, nat> :: Ranked(types, rank)) && Closed(types) && NULL !in types
    ensures TypeTree(types, NULL) == NoType
  {
    var rank: map<Addr, nat> :| Ranked(types, rank) && Closed(types)
      && TypeTree(types, NULL) == Unfold(types, rank, NULL);
  }

  /** Every holder's type is the same tree after a call that leaves the holder alone. */
  lemma HoldersMove(l: Ledger, op: Op)
    requires LedgerOk(l) && Allowed(l.s, op) && (op.SetFieldtypeArg? ==> l.s.types[op.t].ref == 0)
    ensures forall h | h in l.held :: l.held[h].typ == TypeTree(Do(l.s, op).store.types, HolderType(l.s, h))
  {
    forall h | h in l.held ensures l.held[h].typ == TypeTree(Do(l.s, op).store.types, HolderType(l.s, h)) {
      HoldersKept(l.s, op, h);
      TreeKept(l.s, op, HolderType(l.s, h));
    }
  }

  lemma HoldersMoveTo(l: Ledger, op: Op, now: Store)
    requires LedgerOk(l) && Allowed(l.s, op) && (op.SetFieldtypeArg? ==> l.s.types[op.t].ref == 0)
    requires now == Do(l.s, op).store
    ensures forall h | h in l.held :: l.held[h].typ == TypeTree(now.types, HolderType(l.s, h))
  {
    HoldersMove(l, op);
  }

  /** A store in which only the holder x has changed. */
  lemma Rematched(l: Ledger, now: Store, held: map<Addr, Entry>, x: Addr)
    requires held.Keys == now.fields.Keys + {NULL}
    requires forall h | h in held && h != x :: h in l.held && held[h] == l.held[h]
    requires forall h | h in held && h != x :: HolderType(now, h) == HolderType(l.s, h)
    requires forall h | h in l.held :: l.held[h].typ == TypeTree(now.types, HolderType(l.s, h))
    requires x in held ==> held[x].typ == TypeTree(now.types, HolderType(now, x))
    ensures Matches(l.(s := now, held := held))
  {
  }

  /** Calls that only count references, or make or free types. */
  lemma OthersKeep(l: Ledger, op: Op, mem: seq<Addr>)
    requires LedgerOk(l) && Permitted(l, op, mem)
    requires op.NewFieldtype? || op.LinkFieldtype? || op.FreeFieldtype? || op.SetFieldtypeArg? || op.SetOwner?
    ensures LedgerOk(l.(s := Do(l.s, op).store))
  {
    DoKeeps(l.s, op);
    var now := Do(l.s, op).store;
    SameHolders(l.s, op);
    HoldersMove(l, op);
  }

  lemma SameHolders(s: Store, op: Op)
    requires Allowed(s, op)
    requires op.NewFieldtype? || op.LinkFieldtype? || op.FreeFieldtype? || op.SetFieldtypeArg? || op.SetOwner?
    ensures Do(s, op).store.fields.Keys == s.fields.Keys
    ensures forall h :: HolderType(Do(s, op).store, h) == HolderType(s, h)
  {
  }

  /** A call that fails and leaves the store as it is. */
  lemma FailureKeeps(l: Ledger, o: Outcome)
    requires LedgerOk(l) && o.store == l.s
    ensures LedgerOk(l.(s := o.store))
  {
    assert l.(s := o.store) == l;
  }

  /** The new field of new_field, dup_field or link_field. */
  lemma CopiedKeeps(l: Ledger, op: Op, mem: seq<Addr>, t: Addr)
    requires LedgerOk(l) && Permitted(l, op, mem) && (op.NewField? || op.DupField? || op.LinkField?)
    requires t == SourceType(l.s, op)
    ensures LedgerOk(Copied(l, Do(l.s, op), t))
  {
    var o := Do(l.s, op);
    if o.err == E_OK {
      NewHolder(l.s, op);
      PlainTree(l.s, t);
      DoKeeps(l.s, op);
      CopiedMatches(l, op, o);
      CopiedBalanced(l, o, t);
    } else {
      FailedCopy(l.s, op);
      FailureKeeps(l, o);
    }
  }

  lemma CopiedBalanced(l: Ledger, o: Outcome, t: Addr)
    requires Balanced(l) && o.err == E_OK && o.ptr !in l.held && !HasArgs(TypeTree(l.s.types, t))
    ensures Balanced(Copied(l, o, t))
  {
    var e := Entry(TypeTree(l.s.types, t), NULL, []);
    Sprouted(l.held, l.nodes, o.ptr, e.typ);
    OutstandingAdd(l.held, o.ptr, e);
  }

  /** The type that a new field is given. */
  function SourceType(s: Store, op: Op): Addr {
    match op
    case DupField(f, _, _, _, _, _, _) => HolderType(s, f)
    case LinkField(f, _, _, _, _) => HolderType(s, f)
    case _ => s.defType
  }

  /** The new field is the only new holder, and has the type of the one it is made from. */
  ghost predicate Joins(s: Store, o: Outcome, t: Addr) {
    && o.ptr != NULL && o.ptr !in s.fields && o.store.fields.Keys == s.fields.Keys + {o.ptr}
    && HolderType(o.store, o.ptr) == t
    && forall h | h in s.fields || h == NULL :: HolderType(o.store, h) == HolderType(s, h)
  }

  lemma NewHolder(s: Store, op: Op)
    requires FieldsSound(s) && Allowed(s, op) && (op.NewField? || op.DupField? || op.LinkField?)
      && Do(s, op).err == E_OK
    ensures Joins(s, Do(s, op), SourceType(s, op))
  {
    NoNullField(s);
    match op
    case NewField(g, at, copied, bufAt) => FieldJoins(s, op, Do(s, op));
    case DupField(_, _, _, at, _, _, _) => FieldJoins(s, op, Do(s, op));
    case LinkField(f, frow, fcol, at, copied) => LinkJoins(s, f, frow, fcol, at, copied);
  }

  lemma FieldJoins(s: Store, op: Op, o: Outcome)
    requires NULL !in s.fields && Allowed(s, op) && (op.NewField? || op.DupField?) && o == Do(s, op) && o.err == E_OK
    ensures Joins(s, o, SourceType(s, op))
  {
  }

  lemma LinkJoins(s: Store, f: Addr, frow: int, fcol: int, at: Addr, copied: bool)
    requires NULL !in s.fields && (f == NULL || f in s.fields) && at !in s.fields
    requires FieldLinked(s, f, frow, fcol, at, copied).err == E_OK
    ensures Joins(s, FieldLinked(s, f, frow, fcol, at, copied), HolderType(s, f))
  {
  }

  lemma NoNullField(s: Store)
    requires FieldsSound(s)
    ensures NULL !in s.fields
  {
    var rings :| FieldsOk(s, rings);
  }

  lemma FailedCopy(s: Store, op: Op)
    requires Allowed(s, op) && (op.NewField? || op.DupField? || op.LinkField?) && Do(s, op).err != E_OK
    ensures Do(s, op).store == s
  {
  }

  lemma CopiedMatches(l: Ledger, op: Op, o: Outcome)
    requires LedgerOk(l) && Allowed(l.s, op) && (op.NewField? || op.DupField? || op.LinkField?)
    requires o == Do(l.s, op) && o.err == E_OK && Joins(l.s, o, SourceType(l.s, op))
    ensures Matches(Copied(l, o, SourceType(l.s, op)))
  {
    HoldersMove(l, op);
    var t := SourceType(l.s, op);
    var h := SourceHolder(l.s, op);
    assert l.held[h].typ == TypeTree(l.s.types, t) == TypeTree(o.store.types, t);
    JoinsMatches(l, o, t);
  }

  /** The holder that a new field is made from. */
  function SourceHolder(s: Store, op: Op): (h: Addr)
    requires Allowed(s, op) && (op.NewField? || op.DupField? || op.LinkField?)
    ensures (h == NULL || h in s.fields) && HolderType(s, h) == SourceType(s, op)
  {
    match op
    case DupField(f, _, _, _, _, _, _) => f
    case LinkField(f, _, _, _, _) => f
    case _ => NULL
  }

  lemma JoinsMatches(l: Ledger, o: Outcome, t: Addr)
    requires Matches(l) && o.err == E_OK && Joins(l.s, o, t)
    requires forall h | h in l.held :: l.held[h].typ == TypeTree(o.store.types, HolderType(l.s, h))
    requires TypeTree(l.s.types, t) == TypeTree(o.store.types, t)
    ensures Matches(Copied(l, o, t))
  {
    Rematched(l, o.store, l.held[o.ptr := Entry(TypeTree(l.s.types, t), NULL, [])], o.ptr);
  }

  // ----- free_field and set_field_type -----

  lemma FreeKeeps(l: Ledger, f: Addr, mem: seq<Addr>, user: seq<Addr>)
    requires LedgerOk(l) && Permitted(l, FreeField(f), mem)
    ensures LedgerOk(Step(l, FreeField(f), mem, user))
  {
    var o := FieldFreed(l.s, f);
    if o.err == E_OK {
      NoNullField(l.s);
      FreedMatches(l, f);
      DoKeeps(l.s, FreeField(f));
      ReleasedBalanced(l, f);
      LeavesBalanced(Released(l, f), f, o.store);
    } else {
      FailureKeeps(l, o);
    }
  }

  /** A holder that has nothing goes. */
  lemma LeavesBalanced(l: Ledger, h: Addr, s: Store)
    requires Balanced(l) && h in l.held && l.held[h] == BARE
    ensures Balanced(l.(s := s, held := l.held - {h}))
  {
    Felled(l.held, l.nodes, h);
    OutstandingTake(l.held, h);
  }

  lemma FreedMatches(l: Ledger, f: Addr)
    requires LedgerOk(l) && f in l.s.fields && f != NULL && FieldFreed(l.s, f).err == E_OK
    ensures Matches(l.(s := FieldFreed(l.s, f).store, held := l.held[f := BARE] - {f}))
  {
    var now := FieldFreed(l.s, f).store;
    HoldersMoveTo(l, FreeField(f), now);
    FreedHolders(l.s, f);
    LeftMatches(l, now, f);
  }

  lemma LeftMatches(l: Ledger, now: Store, f: Addr)
    requires Matches(l) && f in l.s.fields && f != NULL && now.fields.Keys == l.s.fields.Keys - {f}
    requires forall h | h != f :: HolderType(now, h) == HolderType(l.s, h)
    requires forall h | h in l.held :: l.held[h].typ == TypeTree(now.types, HolderType(l.s, h))
    ensures Matches(l.(s := now, held := l.held[f := BARE] - {f}))
  {
    Rematched(l, now, l.held[f := BARE] - {f}, f);
  }

  lemma FreedHolders(s: Store, f: Addr)
    requires f in s.fields && f != NULL && FieldFreed(s, f).err == E_OK
    ensures FieldFreed(s, f).store.fields.Keys == s.fields.Keys - {f}
    ensures forall h | h != f :: HolderType(FieldFreed(s, f).store, h) == HolderType(s, h)
  {
    FreedFields(s, f);
  }

  lemma SetTypeKeeps(l: Ledger, f: Addr, t: Addr, made: bool, mem: seq<Addr>, user: seq<Addr>)
    requires LedgerOk(l) && Permitted(l, SetFieldType(f, t, made), mem)
    ensures LedgerOk(Step(l, SetFieldType(f, t, made), mem, user))
  {
    ReleasedBalanced(l, f);
    AttachedBalanced(Released(l, f), f, t, mem, user);
    AttachedMatches(l, f, t, mem, user);
  }

  lemma AttachedMatches(l: Ledger, f: Addr, t: Addr, mem: seq<Addr>, user: seq<Addr>)
    requires LedgerOk(l) && (f == NULL || f in l.s.fields) && (t == NULL || t in l.s.types)
    ensures var ok := Make(TypeTree(l.s.types, t), mem, user).err == 0;
      var r := Attached(Released(l, f), f, t, mem, user).(s := TypeSet(l.s, f, t, ok).store);
      Sound(r.s) && Matches(r)
  {
    var m := Make(TypeTree(l.s.types, t), mem, user);
    var e := if m.err == 0 then Entry(TypeTree(l.s.types, t), m.res, m.made) else BARE;
    DoKeeps(l.s, SetFieldType(f, t, m.err == 0));
    NewTypeOf(l.s, f, t, mem, user);
    var now := TypeSet(l.s, f, t, m.err == 0).store;
    SetMoves(l, f, t, m.err == 0, now);
    SetHolders(l.s, f, t, m.err == 0);
    SetMatches(l, f, e, now);
    AttachedHeld(l, f, t, mem, user, e);
  }

  lemma SetMoves(l: Ledger, f: Addr, t: Addr, ok: bool, now: Store)
    requires LedgerOk(l) && (f == NULL || f in l.s.fields) && (t == NULL || t in l.s.types)
    requires now == TypeSet(l.s, f, t, ok).store
    ensures forall h | h in l.held :: l.held[h].typ == TypeTree(now.types, HolderType(l.s, h))
  {
    HoldersMove(l, SetFieldType(f, t, ok));
  }

  lemma SetMatches(l: Ledger, f: Addr, e: Entry, now: Store)
    requires Matches(l) && f in l.held && e.typ == TypeTree(now.types, HolderType(now, f))
    requires now.fields.Keys == l.s.fields.Keys && forall h | h != f :: HolderType(now, h) == HolderType(l.s, h)
    requires forall h | h in l.held :: l.held[h].typ == TypeTree(now.types, HolderType(l.s, h))
    ensures Matches(l.(s := now, held := l.held[f := e]))
  {
    Rematched(l, now, l.held[f := e], f);
  }

  lemma AttachedHeld(l: Ledger, f: Addr, t: Addr, mem: seq<Addr>, user: seq<Addr>, e: Entry)
    requires f in l.held
    requires var m := Make(TypeTree(l.s.types, t), mem, user);
      e == if m.err == 0 then Entry(TypeTree(l.s.types, t), m.res, m.made) else BARE
    ensures Attached(Released(l, f), f, t, mem, user).held == l.held[f := e]
  {
  }

  lemma SetHolders(s: Store, f: Addr, t: Addr, ok: bool)
    requires (f == NULL || f in s.fields) && (t == NULL || t in s.types)
    ensures TypeSet(s, f, t, ok).store.fields.Keys == s.fields.Keys
    ensures forall h | h != f :: HolderType(TypeSet(s, f, t, ok).store, h) == HolderType(s, h)
  {
  }

  /** The holder's new type: t if its arguments could be made, else none. */
  lemma NewTypeOf(s: Store, f: Addr, t: Addr, mem: seq<Addr>, user: seq<Addr>)
    requires Sound(s) && (f == NULL || f in s.fields) && (t == NULL || t in s.types)
    ensures var m := Make(TypeTree(s.types, t), mem, user); var now := TypeSet(s, f, t, m.err == 0).store;
      TypeTree(now.types, HolderType(now, f)) == if m.err == 0 then TypeTree(s.types, t) else NoType
  {
    var m := Make(TypeTree(s.types, t), mem, user);
    var op := SetFieldType(f, t, m.err == 0);
    if m.err == 0 {
      TreeKept(s, op, t);
    } else {
      if Plain(s, t) { PlainTree(s, t); }
      DoKeepsTypes(s, op);
      StoreTypes(s);
      StoreTypes(Do(s, op).store);
      NoTree(Do(s, op).store.types);
    }
  }

  /** Every call keeps the ledger balanced. */
  lemma StepKeeps(l: Ledger, op: Op, mem: seq<Addr>, user: seq<Addr>)
    requires LedgerOk(l) && Permitted(l, op, mem)
    ensures LedgerOk(Step(l, op, mem, user))
  {
    match op
    case SetFieldType(f, t, made) => SetTypeKeeps(l, f, t, made, mem, user);
    case FreeField(f) => FreeKeeps(l, f, mem, user);
    case NewField(_, _, _, _) => CopiedKeeps(l, op, mem, l.s.defType);
    case DupField(f, _, _, _, _, _, _) => CopiedKeeps(l, op, mem, HolderType(l.s, f));
    case LinkField(f, _, _, _, _) => CopiedKeeps(l, op, mem, HolderType(l.s, f));
    case _ => OthersKeep(l, op, mem);
  }

  // ----- whole runs -----

  /** A call and the answers that malloc and the makearg functions give during it. */
  datatype Call = Call(op: Op, mem: seq<Addr>, user: seq<Addr>)

  ghost predicate Starts(l: Ledger) {
    Initial(l.s) && l.held == map[NULL := BARE] && l.nodes == map[] && l.made == [] && l.calls == [] && !l.fault
  }

  ghost predicate Passes(ledgers: seq<Ledger>, calls: seq<Call>) {
    && |ledgers| == |calls| + 1
    && forall i | 0 <= i < |calls| ::
         Permitted(ledgers[i], calls[i].op, calls[i].mem)
         && ledgers[i + 1] == Step(ledgers[i], calls[i].op, calls[i].mem, calls[i].user)
  }

  lemma StartOk(l: Ledger)
    requires Starts(l)
    ensures LedgerOk(l)
  {
    InitialSound(l.s);
    StoreTypes(l.s);
    NoTree(l.s.types);
    OutstandingTake(l.held, NULL);
  }

  /** In every state of every run: the argument nodes are exactly the disjoint union of the live fields' trees,
      each complete for the field's type; no freed node was touched; and every argument made has been handed to its
      freearg or is in the tree of one live field, as often as it was made. */
  lemma {:induction false} RunBalanced(ledgers: seq<Ledger>, calls: seq<Call>, i: nat)
    requires Passes(ledgers, calls) && Starts(ledgers[0]) && i < |ledgers|
    ensures LedgerOk(ledgers[i])
  {
    if i == 0 {
      StartOk(ledgers[0]);
    } else {
      RunBalanced(ledgers, calls, i - 1);
      StepKeeps(ledgers[i - 1], calls[i - 1].op, calls[i - 1].mem, calls[i - 1].user);
    }
  }

  /** When all fields are freed and the default field has no type, no node is left, and what was made and what was
      handed back are the same arguments. */
  lemma NothingLeft(l: Ledger)
    requires LedgerOk(l) && l.s.fields == map[] && l.s.defType == NULL
    ensures l.nodes == map[] && multiset(l.made) == multiset(l.calls)
  {
    StoreTypes(l.s);
    NoTree(l.s.types);
    OnlyOwner(l.held, l.nodes);
    OutstandingTake(l.held, NULL);
    assert l.held - {NULL} == map[];
  }

  lemma OnlyOwner(held: map<Addr, Entry>, nodes: map<Addr, Node>)
    requires ForestOk(held, nodes) && held.Keys == {NULL}
    ensures EntryOk(held[NULL], nodes) && nodes.Keys <= OwnOf(held[NULL], nodes)
  {
    forall a | a in nodes ensures a in OwnOf(held[NULL], nodes) { assert Used(held, nodes, a); }
  }
}
