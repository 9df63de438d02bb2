/** What it means that a fieldtype has arguments: for a linked type, that a leaf below it has. And what is made for
    such a type. */
module TypeFlags {
  import opened ArgumentLedger
  import opened ArgumentRuns
  import opened Arguments
  import opened FieldRefs
  import opened FieldRuns
  import opened FieldStore

  // ----- the flag in the store -----

  /** A linked type has arguments exactly if one of its operands has. */
  ghost predicate Flagged(types: map<Addr, TypeCell>) {
    forall u {:trigger types[u].linked} |
      u in types && types[u].linked && types[u].left in types && types[u].right in types ::
      types[u].hasArgs <==> types[types[u].left].hasArgs || types[types[u].right].hasArgs
  }

  /** Giving arguments to t leaves its flag, and those of the types built from it, right. */
  ghost predicate Givable(types: map<Addr, TypeCell>, t: Addr)
    requires t in types
  {
    types[t].hasArgs ||
    (!types[t].linked
     && forall u {:trigger types[u].linked} |
          u in types && types[u].linked && (types[u].left == t || types[u].right == t) :: types[u].hasArgs)
  }

  lemma CountedFlagged(types: map<Addr, TypeCell>, t: Addr, n: int)
    requires Flagged(types)
    ensures Flagged(Counted(types, t, n))
  {
  }

  lemma AddedFlagged(types: map<Addr, TypeCell>, at: Addr, cell: TypeCell)
    requires Flagged(types) && Closed(types) && at !in types
    requires cell.linked ==> cell.left in types && cell.right in types
    requires cell.linked ==> (cell.hasArgs <==> types[cell.left].hasArgs || types[cell.right].hasArgs)
    ensures Flagged(types[at := cell])
  {
  }

  /** set_fieldtype_arg keeps the flags right exactly for a type that is not linked and from which no type without
      arguments is built. */
  lemma GivingKeepsIff(types: map<Addr, TypeCell>, rank: map<Addr, nat>, t: Addr, hasFree: bool)
    requires Flagged(types) && Closed(types) && Ranked(types, rank) && t in types
    ensures Flagged(ArgsGiven(types, t, hasFree)) <==> Givable(types, t)
  {
    var now := ArgsGiven(types, t, hasFree);
    if !types[t].hasArgs && Flagged(now) {
      assert !now[t].linked;
      forall u {:trigger types[u].linked} | u in types && types[u].linked && (types[u].left == t || types[u].right == t)
        ensures types[u].hasArgs
      {
        assert now[u].linked && u != t;
      }
    }
  }

  /** Every call but that one keeps the flags right. */
  lemma FlagsKept(s: Store, op: Op)
    requires TypesSound(s) && Allowed(s, op) && Flagged(s.types)
    requires op.SetFieldtypeArg? ==> Givable(s.types, op.t)
    ensures Flagged(Do(s, op).store.types)
  {
    StoreTypes(s);
    match op
    case NewField(_, _, _, _) => CountedFlagged(s.types, s.defType, 1);
    case DupField(f, _, _, _, _, _, _) => CountedFlagged(s.types, HolderType(s, f), 1);
    case LinkField(f, _, _, _, _) => CountedFlagged(s.types, HolderType(s, f), 1);
    case FreeField(f) => CountedFlagged(s.types, HolderType(s, f), -1);
    case SetFieldType(f, t, made) => SetFlagged(s, f, t, made);
    case NewFieldtype(_, at) => AddedFlagged(s.types, at, TypeCell(0, false, NULL, NULL, false, false, false));
    case LinkFieldtype(t1, t2, at) => LinkFlagged(s, t1, t2, at);
    case FreeFieldtype(t) => FreeFlagged(s, t);
    case SetFieldtypeArg(t, hasFree) =>
      var rank: map<Addr, nat> :| Ranked(s.types, rank);
      GivingKeepsIff(s.types, rank, t, hasFree);
    case SetOwner(_, _) =>
  }

  lemma SetFlagged(s: Store, f: Addr, t: Addr, made: bool)
    requires Flagged(s.types) && (f == NULL || f in s.fields) && (t == NULL || t in s.types)
    ensures Flagged(TypeSet(s, f, t, made).store.types)
  {
    var was := if f == NULL then s.defType else s.fields[f].typ;
    var now := if ArgsReady(s.types, t, made) then t else NULL;
    CountedFlagged(s.types, was, -1);
    CountedFlagged(Counted(s.types, was, -1), now, 1);
  }

  lemma LinkFlagged(s: Store, t1: Addr, t2: Addr, at: Addr)
    requires Flagged(s.types) && Closed(s.types) && at !in s.types
    requires (t1 == NULL || t1 in s.types) && (t2 == NULL || t2 in s.types)
    ensures Flagged(TypesLinked(s, t1, t2, at).store.types)
  {
    var up := Counted(s.types, t1, 1);
    CountedFlagged(s.types, t1, 1);
    CountedFlagged(up, t2, 1);
    var o := TypesLinked(s, t1, t2, at);
    if o.store != s { AddedFlagged(Counted(up, t2, 1), at, o.store.types[at]); }
  }

  lemma FreeFlagged(s: Store, t: Addr)
    requires Flagged(s.types) && (t == NULL || t in s.types)
    ensures Flagged(TypeFreed(s, t).store.types)
  {
    if t != NULL {
      var c := s.types[t];
      CountedFlagged(s.types, c.left, -1);
      CountedFlagged(Counted(s.types, c.left, -1), c.right, -1);
    }
  }

  // ----- the flag in the tree -----

  /** The leaves with arguments, from left to right, whatever the linked types above them say. */
  function ArgLeaves(t: FType): seq<nat> {
    match t
    case NoType => []
    case Leaf(name, hasArgs, _) => if hasArgs then [name] else []
    case Linked(_, left, right) => ArgLeaves(left) + ArgLeaves(right)
  }

  /** At every linked type the flag says whether there is such a leaf below. */
  predicate Proper(t: FType) {
    t.Linked? ==> Proper(t.left) && Proper(t.right) && (t.hasArgs <==> ArgLeaves(t) != [])
  }

  /** A type is a leaf or is linked of what its operands are. */
  lemma TreeMeaning(types: map<Addr, TypeCell>, rank: map<Addr, nat>, t: Addr)
    requires Ranked(types, rank) && Closed(types)
    ensures t !in types ==> TypeTree(types, t) == NoType
    ensures t in types && !types[t].linked ==> TypeTree(types, t) == Leaf(t, types[t].hasArgs, types[t].hasFree)
    ensures t in types && types[t].linked ==>
      TypeTree(types, t)
      == Linked(types[t].hasArgs, TypeTree(types, types[t].left), TypeTree(types, types[t].right))
  {
    TreeIsUnfold(types, rank, t);
    if t in types && types[t].linked {
      TreeIsUnfold(types, rank, types[t].left);
      TreeIsUnfold(types, rank, types[t].right);
    }
  }

  lemma TreeIsUnfold(types: map<Addr, TypeCell>, rank: map<Addr, nat>, t: Addr)
    requires Ranked(types, rank) && Closed(types)
    ensures TypeTree(types, t) == Unfold(types, rank, t)
  {
    var r: map<Addr, nat> :| Ranked(types, r) && Closed(types) && TypeTree(types, t) == Unfold(types, r, t);
    UnfoldUnique(types, r, rank, t);
  }

  lemma {:induction false} FlagMeaning(types: map<Addr, TypeCell>, rank: map<Addr, nat>, t: Addr)
    requires Ranked(types, rank) && Closed(types) && Flagged(types)
    ensures var typ := TypeTree(types, t); Proper(typ) && (HasArgs(typ) <==> ArgLeaves(typ) != [])
    decreases if t in types then rank[t] + 1 else 0
  {
    TreeMeaning(types, rank, t);
    if t in types && types[t].linked {
      var l, r := types[t].left, types[t].right;
      FlagMeaning(types, rank, l);
      FlagMeaning(types, rank, r);
      TreeMeaning(types, rank, l);
      TreeMeaning(types, rank, r);
    }
  }

  /** In every store of every run in which no linked type is given arguments, nor any from which a type without
      arguments is already built: a type has arguments exactly if some leaf below it has. */
  lemma {:induction false} FlagsInRuns(stores: seq<Store>, ops: seq<Op>, i: nat, t: Addr)
    requires Runs(stores, ops) && Initial(stores[0]) && i < |stores|
    requires forall j | 0 <= j < i && ops[j].SetFieldtypeArg? :: Givable(stores[j].types, ops[j].t)
    ensures Flagged(stores[i].types)
    ensures HasArgs(TypeTree(stores[i].types, t)) <==> ArgLeaves(TypeTree(stores[i].types, t)) != []
  {
    RunKeeps(stores, ops, i);
    if i > 0 {
      RunKeeps(stores, ops, i - 1);
      FlagsInRuns(stores, ops, i - 1, t);
      FlagsKept(stores[i - 1], ops[i - 1]);
    }
    StoreTypes(stores[i]);
    var rank: map<Addr, nat> :| Ranked(stores[i].types, rank);
    FlagMeaning(stores[i].types, rank, t);
  }

  /** Arguments given too late: type 3 is linked of 1 and 2 before 1 is given any, and is never told. */
  lemma ToldTooLate()
    ensures var leaf := TypeCell(1, false, NULL, NULL, false, false, false);
      var types := map[1 := leaf, 2 := leaf, 3 := TypeCell(0, true, 1, 2, false, false, false)];
      var now := ArgsGiven(types, 1, true);
      Flagged(types) && !Givable(types, 1) && !HasArgs(TypeTree(now, 3)) && ArgLeaves(TypeTree(now, 3)) == [1]
  {
    var leaf := TypeCell(1, false, NULL, NULL, false, false, false);
    var types := map[1 := leaf, 2 := leaf, 3 := TypeCell(0, true, 1, 2, false, false, false)];
    var now := ArgsGiven(types, 1, true);
    var rank: map<Addr, nat> := map[1 := 0, 2 := 0, 3 := 1];
    assert types[3].linked;
    TreeMeaning(now, rank, 1);
    TreeMeaning(now, rank, 2);
    TreeMeaning(now, rank, 3);
  }

  // ----- what is made -----

  /** The arguments that hang at the leaves, whatever the flags of the linked types above them say. */
  function ArgsIn(t: FType, argp: Addr, nodes: map<Addr, Node>): seq<Arg> {
    match t
    case NoType => []
    case Leaf(name, hasArgs, _) => if hasArgs then [Arg(name, argp)] else []
    case Linked(_, left, right) =>
      if argp in nodes then ArgsIn(left, nodes[argp].left, nodes) + ArgsIn(right, nodes[argp].right, nodes) else []
  }

  lemma {:induction false} NoArgsIn(t: FType, argp: Addr, nodes: map<Addr, Node>)
    requires ArgLeaves(t) == []
    ensures ArgsIn(t, argp, nodes) == []
  {
    if t.Linked? && argp in nodes {
      NoArgsIn(t.left, nodes[argp].left, nodes);
      NoArgsIn(t.right, nodes[argp].right, nodes);
    }
  }

  lemma {:induction false} ArgsFrame(t: FType, argp: Addr, was: map<Addr, Node>, now: map<Addr, Node>)
    requires Proper(t) && Tree(t, argp, was) && Complete(t, argp, was)
    requires forall a | a in Own(t, argp, was) :: a in now && now[a] == was[a]
    ensures ArgsIn(t, argp, now) == ArgsIn(t, argp, was)
  {
    if t.Linked? {
      if t.hasArgs {
        ArgsFrame(t.left, was[argp].left, was, now);
        ArgsFrame(t.right, was[argp].right, was, now);
      } else {
        NoArgsIn(t, argp, was);
        NoArgsIn(t, argp, now);
      }
    }
  }

  /** Each of these leaves has the answer of its makearg, in order, and no answer is null. */
  predicate Answered(names: seq<nat>, user: seq<Addr>, args: seq<Arg>) {
    && |args| == |names| <= |user|
    && forall i | 0 <= i < |names| :: args[i] == Arg(names[i], user[i]) && user[i] != NULL
  }

  lemma AnsweredBoth(l: seq<nat>, r: seq<nat>, user: seq<Addr>, a: seq<Arg>, b: seq<Arg>)
    requires Answered(l, user, a) && Answered(r, user[|l|..], b)
    ensures Answered(l + r, user, a + b) && user[|l|..][|r|..] == user[|l + r|..]
  {
  }

  /** If nothing fails, an argument is made for every leaf that has arguments, and none besides. */
  lemma {:induction false} MakesEvery(t: FType, mem: seq<Addr>, user: seq<Addr>)
    requires Proper(t) && Distinct(mem) && Make(t, mem, user).err == 0
    ensures var m, names := Make(t, mem, user), ArgLeaves(t);
      Answered(names, user, ArgsIn(t, m.res, m.added)) && m.user == user[|names|..]
    decreases t, 1
  {
    if t.Linked? {
      if t.hasArgs { MakesBoth(t, mem, user); } else { NoArgsIn(t, NULL, map[]); }
    }
  }

  lemma {:induction false} MakesBoth(t: FType, mem: seq<Addr>, user: seq<Addr>)
    requires t.Linked? && t.hasArgs && Proper(t) && Distinct(mem) && Make(t, mem, user).err == 0
    ensures var m, names := Make(t, mem, user), ArgLeaves(t);
      Answered(names, user, ArgsIn(t, m.res, m.added)) && m.user == user[|names|..]
    decreases t, 0
  {
    var p, rest := mem[0], mem[1..];
    var l := Make(t.left, rest, user);
    var r := Make(t.right, l.mem, l.user);
    FirstIsNew(mem);
    MadeFrom(t.left, rest, user);
    MakesEvery(t.left, rest, user);
    MakesEvery(t.right, l.mem, l.user);
    SidesHang(t, p, l, r, rest, user);
    AnsweredBoth(ArgLeaves(t.left), ArgLeaves(t.right), user, ArgsIn(t.left, l.res, l.added),
                 ArgsIn(t.right, r.res, r.added));
  }

  lemma SidesHang(t: FType, p: Addr, l: Made, r: Made, mem: seq<Addr>, user: seq<Addr>)
    requires t.Linked? && Proper(t) && Distinct(mem) && p !in mem
    requires l == Make(t.left, mem, user) && r == Make(t.right, l.mem, l.user) && l.err == r.err == 0
    ensures ArgsIn(t, p, (l.added + r.added)[p := Node(l.res, r.res)]) ==
            ArgsIn(t.left, l.res, l.added) + ArgsIn(t.right, r.res, r.added)
  {
    var all := (l.added + r.added)[p := Node(l.res, r.res)];
    SidesApart(t, p, mem, user);
    MadeFrom(t.left, mem, user);
    MadeFrom(t.right, l.mem, l.user);
    HangsIn(t.left, mem, user, all);
    HangsIn(t.right, l.mem, l.user, all);
  }

  /** What was made hangs where it hung, in any memory that has it. */
  lemma HangsIn(t: FType, mem: seq<Addr>, user: seq<Addr>, all: map<Addr, Node>)
    requires Proper(t) && Distinct(mem) && Make(t, mem, user).err == 0
    requires forall a | a in Make(t, mem, user).added :: a in all && all[a] == Make(t, mem, user).added[a]
    ensures var m := Make(t, mem, user); ArgsIn(t, m.res, all) == ArgsIn(t, m.res, m.added)
  {
    var m := Make(t, mem, user);
    MakeTree(t, mem, user);
    ArgsFrame(t, m.res, m.added, all);
  }

  // ----- what is handed back -----

  /** Those of the arguments whose type has a freearg. */
  function WithFree(args: seq<Arg>, types: map<Addr, TypeCell>): seq<Arg> {
    if args == [] then []
    else (if args[0].name in types && types[args[0].name].hasFree then [args[0]] else []) + WithFree(args[1..], types)
  }

  lemma {:induction false} WithFreeBoth(a: seq<Arg>, b: seq<Arg>, types: map<Addr, TypeCell>)
    ensures WithFree(a + b, types) == WithFree(a, types) + WithFree(b, types)
  {
    if a == [] {
      assert a + b == b;
    } else {
      assert (a + b)[1..] == a[1..] + b;
      WithFreeBoth(a[1..], b, types);
    }
  }

  /** What freeing a tree hands to freearg functions is all that hangs in it and has one. */
  lemma {:induction false} LeavesWithFree(types: map<Addr, TypeCell>, rank: map<Addr, nat>, t: Addr, argp: Addr,
                                          nodes: map<Addr, Node>)
    requires Ranked(types, rank) && Closed(types) && Flagged(types) && NULL !in nodes
    ensures var typ := TypeTree(types, t); Leaves(typ, argp, nodes) == WithFree(ArgsIn(typ, argp, nodes), types)
    decreases if t in types then rank[t] + 1 else 0
  {
    var typ := TypeTree(types, t);
    TreeMeaning(types, rank, t);
    FlagMeaning(types, rank, t);
    if !HasArgs(typ) {
      NoArgsIn(typ, argp, nodes);
    } else if types[t].linked && argp in nodes {
      var n := nodes[argp];
      LeavesWithFree(types, rank, types[t].left, n.left, nodes);
      LeavesWithFree(types, rank, types[t].right, n.right, nodes);
      WithFreeBoth(ArgsIn(typ.left, n.left, nodes), ArgsIn(typ.right, n.right, nodes), types);
    }
  }

  lemma {:induction false} OwnNotNull(t: FType, argp: Addr, nodes: map<Addr, Node>)
    ensures NULL !in Own(t, argp, nodes)
  {
    if t.Linked? && argp in nodes {
      OwnNotNull(t.left, nodes[argp].left, nodes);
      OwnNotNull(t.right, nodes[argp].right, nodes);
    }
  }

  lemma ForestNotNull(held: map<Addr, Entry>, nodes: map<Addr, Node>)
    requires ForestOk(held, nodes)
    ensures NULL !in nodes
  {
    if NULL in nodes {
      assert Used(held, nodes, NULL);
      var h :| h in held && NULL in OwnOf(held[h], nodes);
      OwnNotNull(held[h].typ, held[h].arg, nodes);
      assert false;
    }
  }

  /** Releasing a field's argument, in free_field and in set_field_type, hands every argument in its tree whose type
      has a freearg to that freearg, in order, and calls no other. */
  lemma ReleaseHandsBack(l: Ledger, f: Addr)
    requires LedgerOk(l) && f in l.held && Flagged(l.s.types)
    ensures Released(l, f).calls ==
            l.calls + WithFree(ArgsIn(TypeTree(l.s.types, HolderType(l.s, f)), l.held[f].arg, l.nodes), l.s.types)
  {
    Dropped(l.held, l.nodes, f);
    ForestNotNull(l.held, l.nodes);
    StoreTypes(l.s);
    var rank: map<Addr, nat> :| Ranked(l.s.types, rank);
    LeavesWithFree(l.s.types, rank, HolderType(l.s, f), l.held[f].arg, l.nodes);
  }

  // ----- set_field_type -----

  /** After a set_field_type that succeeds, every leaf of the type that has arguments has what its makearg returned,
      which is not null, and the makearg functions of the others were not called. What is due to the freearg functions
      grows by the arguments whose type has one. */
  lemma SetTypeMakesEvery(l: Ledger, f: Addr, t: Addr, made: bool, mem: seq<Addr>, user: seq<Addr>)
    requires LedgerOk(l) && Permitted(l, SetFieldType(f, t, made), mem) && Flagged(l.s.types)
    requires t != NULL && HolderType(Step(l, SetFieldType(f, t, made), mem, user).s, f) == t
    ensures var r := Step(l, SetFieldType(f, t, made), mem, user); var typ := TypeTree(r.s.types, t);
      && f in r.held && r.held[f].typ == typ
      && Answered(ArgLeaves(typ), user, ArgsIn(typ, r.held[f].arg, r.nodes))
      && r.made == l.made + WithFree(ArgsIn(typ, r.held[f].arg, r.nodes), l.s.types)
  {
    TypeTaken(l.s, f, t, mem, user);
    var typ := TypeTree(l.s.types, t);
    AllMade(l.s, t, mem, user, Released(l, f).nodes);
    SetStep(l, f, t, made, mem, user);
  }

  /** The field has the new type afterwards only if nothing failed. */
  lemma TypeTaken(s: Store, f: Addr, t: Addr, mem: seq<Addr>, user: seq<Addr>)
    requires Sound(s) && (f == NULL || f in s.fields) && t != NULL && t in s.types
    requires var ok := Make(TypeTree(s.types, t), mem, user).err == 0; HolderType(TypeSet(s, f, t, ok).store, f) == t
    ensures var m := Make(TypeTree(s.types, t), mem, user);
      m.err == 0 && TypeTree(TypeSet(s, f, t, true).store.types, t) == TypeTree(s.types, t)
  {
    var m := Make(TypeTree(s.types, t), mem, user);
    if !HasArgs(TypeTree(s.types, t)) { assert m.err == 0; }
    StoreTypes(s);
    var rank: map<Addr, nat> :| Ranked(s.types, rank);
    TreeMeaning(s.types, rank, t);
    TreeKept(s, SetFieldType(f, t, true), t);
  }

  lemma SetStep(l: Ledger, f: Addr, t: Addr, made: bool, mem: seq<Addr>, user: seq<Addr>)
    requires Permitted(l, SetFieldType(f, t, made), mem) && Make(TypeTree(l.s.types, t), mem, user).err == 0
    ensures var r, m := Step(l, SetFieldType(f, t, made), mem, user), Make(TypeTree(l.s.types, t), mem, user);
      && r.s == TypeSet(l.s, f, t, true).store && f in r.held
      && r.held[f] == Entry(TypeTree(l.s.types, t), m.res, m.made) && r.nodes == Released(l, f).nodes + m.added
      && r.made == l.made + m.made
  {
  }

  lemma AllMade(s: Store, t: Addr, mem: seq<Addr>, user: seq<Addr>, nodes: map<Addr, Node>)
    requires TypesSound(s) && Flagged(s.types) && Distinct(mem) && Make(TypeTree(s.types, t), mem, user).err == 0
    ensures var typ := TypeTree(s.types, t); var m := Make(typ, mem, user);
      && Answered(ArgLeaves(typ), user, ArgsIn(typ, m.res, nodes + m.added))
      && m.made == WithFree(ArgsIn(typ, m.res, nodes + m.added), s.types)
  {
    var typ := TypeTree(s.types, t);
    StoreTypes(s);
    var rank: map<Addr, nat> :| Ranked(s.types, rank);
    FlagMeaning(s.types, rank, t);
    MakesEvery(typ, mem, user);
    MakeTree(typ, mem, user);
    MadeFrom(typ, mem, user);
    LeavesWithFree(s.types, rank, t, Make(typ, mem, user).res, Make(typ, mem, user).added);
    HangsIn(typ, mem, user, nodes + Make(typ, mem, user).added);
  }

  /** The flags are right in every state of every run in which arguments are given only to types that are not linked,
      and not in use. */
  lemma {:induction false} FlagsInPasses(ledgers: seq<Ledger>, calls: seq<Call>, i: nat)
    requires Passes(ledgers, calls) && Starts(ledgers[0]) && i < |ledgers|
    requires forall j | 0 <= j < i && calls[j].op.SetFieldtypeArg? :: !ledgers[j].s.types[calls[j].op.t].linked
    ensures Flagged(ledgers[i].s.types)
  {
    if i == 0 {
      InitialFlagged(ledgers[0].s);
    } else {
      FlagsInPasses(ledgers, calls, i - 1);
      RunBalanced(ledgers, calls, i - 1);
      StepFlagged(ledgers[i - 1], calls[i - 1].op, calls[i - 1].mem, calls[i - 1].user);
    }
  }

  lemma InitialFlagged(s: Store)
    requires Initial(s)
    ensures Flagged(s.types)
  {
  }

  /** The call, with what set_field_type finds out. */
  ghost function Told(l: Ledger, op: Op, mem: seq<Addr>, user: seq<Addr>): Op {
    match op
    case SetFieldType(f, t, _) => SetFieldType(f, t, Make(TypeTree(l.s.types, t), mem, user).err == 0)
    case _ => op
  }

  lemma StepStore(l: Ledger, op: Op, mem: seq<Addr>, user: seq<Addr>)
    requires Permitted(l, op, mem)
    ensures Allowed(l.s, op) && Allowed(l.s, Told(l, op, mem, user))
    ensures Step(l, op, mem, user).s == Do(l.s, Told(l, op, mem, user)).store
  {
  }

  lemma UnusedGivable(s: Store, t: Addr)
    requires TypesSound(s) && t in s.types && s.types[t].ref == 0 && !s.types[t].linked
    ensures Givable(s.types, t)
  {
    StoreTypes(s);
    NobodyHolds(s, t);
  }

  lemma StepFlagged(l: Ledger, op: Op, mem: seq<Addr>, user: seq<Addr>)
    requires LedgerOk(l) && Permitted(l, op, mem) && Flagged(l.s.types)
    requires op.SetFieldtypeArg? ==> !l.s.types[op.t].linked
    ensures Flagged(Step(l, op, mem, user).s.types)
  {
    StepStore(l, op, mem, user);
    if op.SetFieldtypeArg? { UnusedGivable(l.s, op.t); }
    FlagsKept(l.s, Told(l, op, mem, user));
  }
}
