/** The argument structures of linked types: what _nc_Make_Argument builds is what _nc_Free_Argument takes apart,
    whichever allocations fail. */
module Arguments {
  import opened FieldStore

  /** A fieldtype as the two recursions see it; `name` says whose callbacks a leaf has. */
  datatype FType =
    | NoType
    | Leaf(name: nat, hasArgs: bool, hasFree: bool)
    | Linked(hasArgs: bool, left: FType, right: FType)

  /** A TypeArgument node; its members point to nodes or to what a makearg returned. */
  datatype Node = Node(left: Addr, right: Addr)

  /** A leaf's argument, as returned by its makearg or handed to its freearg. */
  datatype Arg = Arg(name: nat, ptr: Addr)

  predicate HasArgs(t: FType) { !t.NoType? && t.hasArgs }

  /** What the next allocation gives; an exhausted allocator gives null. */
  function Head(tape: seq<Addr>): Addr { if tape == [] then NULL else tape[0] }

  function Tail(tape: seq<Addr>): seq<Addr> { if tape == [] then [] else tape[1..] }

  /** The nodes added, what is left of the answers of malloc and of the makearg functions, the pointer returned,
      the failures counted, and the arguments made for leaves that have a freearg. */
  datatype Made = Made(added: map<Addr, Node>, mem: seq<Addr>, user: seq<Addr>, res: Addr, err: nat, made: seq<Arg>)

  /** _nc_Make_Argument: its effect, when malloc answers `mem` and the makearg functions answer `user`. */
  function Make(t: FType, mem: seq<Addr>, user: seq<Addr>): Made {
    if !HasArgs(t) then Made(map[], mem, user, NULL, 0, [])
    else match t
      case Leaf(name, _, hasFree) =>
        var a := Head(user);
        Made(map[], mem, Tail(user), a, if a == NULL then 1 else 0, if hasFree then [Arg(name, a)] else [])
      case Linked(_, left, right) =>
        var p := Head(mem);
        if p == NULL then Made(map[], Tail(mem), user, NULL, 1, [])
        else
          var l := Make(left, Tail(mem), user);
          var r := Make(right, l.mem, l.user);
          Made((l.added + r.added)[p := Node(l.res, r.res)], r.mem, r.user, p, l.err + r.err, l.made + r.made)
  }

  /** The nodes left, the arguments handed to freearg functions in order, and whether a node was used or freed
      that is not allocated. */
  datatype Freed = Freed(nodes: map<Addr, Node>, calls: seq<Arg>, fault: bool)

  /** _nc_Free_Argument: the right member is read, and the node freed, after the left side is gone. */
  function Free(t: FType, argp: Addr, nodes: map<Addr, Node>): Freed {
    if !HasArgs(t) then Freed(nodes, [], false)
    else match t
      case Leaf(name, _, hasFree) => Freed(nodes, if hasFree then [Arg(name, argp)] else [], false)
      case Linked(_, left, right) =>
        if argp == NULL then Freed(nodes, [], false)
        else if argp !in nodes then Freed(nodes, [], true)
        else
          var l := Free(left, nodes[argp].left, nodes);
          if argp !in l.nodes then Freed(l.nodes, l.calls, true)
          else
            var r := Free(right, l.nodes[argp].right, l.nodes);
            Freed(r.nodes - {argp}, l.calls + r.calls, l.fault || r.fault || argp !in r.nodes)
  }

  // ----- the trees in between -----

  /** The nodes that belong to an argument. */
  function Own(t: FType, argp: Addr, nodes: map<Addr, Node>): (own: set<Addr>)
    ensures own <= nodes.Keys
  {
    if HasArgs(t) && t.Linked? && argp != NULL && argp in nodes then
      {argp} + Own(t.left, nodes[argp].left, nodes) + Own(t.right, nodes[argp].right, nodes)
    else {}
  }

  /** The argument is a tree of allocated nodes, none of them shared. */
  ghost predicate Tree(t: FType, argp: Addr, nodes: map<Addr, Node>) {
    HasArgs(t) && t.Linked? && argp != NULL ==>
      && argp in nodes
      && Tree(t.left, nodes[argp].left, nodes) && Tree(t.right, nodes[argp].right, nodes)
      && argp !in Own(t.left, nodes[argp].left, nodes) && argp !in Own(t.right, nodes[argp].right, nodes)
      && Own(t.left, nodes[argp].left, nodes) !! Own(t.right, nodes[argp].right, nodes)
  }

  /** The leaf arguments in the tree that have a freearg, from left to right. */
  function Leaves(t: FType, argp: Addr, nodes: map<Addr, Node>): seq<Arg> {
    if !HasArgs(t) then []
    else if t.Leaf? then if t.hasFree then [Arg(t.name, argp)] else []
    else if argp == NULL || argp !in nodes then []
    else Leaves(t.left, nodes[argp].left, nodes) + Leaves(t.right, nodes[argp].right, nodes)
  }

  /** Nothing is missing: every linked type has its node and every leaf its argument. */
  predicate Complete(t: FType, argp: Addr, nodes: map<Addr, Node>) {
    HasArgs(t) ==>
      && argp != NULL
      && (t.Linked? && argp in nodes ==>
            Complete(t.left, nodes[argp].left, nodes) && Complete(t.right, nodes[argp].right, nodes))
  }

  /** A tree is the same tree in any memory that agrees on its nodes. */
  lemma {:induction false} TreeFrame(t: FType, argp: Addr, was: map<Addr, Node>, now: map<Addr, Node>)
    requires Tree(t, argp, was)
    requires forall a | a in Own(t, argp, was) :: a in now && now[a] == was[a]
    ensures Tree(t, argp, now) && Own(t, argp, now) == Own(t, argp, was)
    ensures Leaves(t, argp, now) == Leaves(t, argp, was)
    ensures Complete(t, argp, now) <==> Complete(t, argp, was)
  {
    if HasArgs(t) && t.Linked? && argp != NULL {
      TreeFrame(t.left, was[argp].left, was, now);
      TreeFrame(t.right, was[argp].right, was, now);
    }
  }

  // ----- freeing a tree -----

  /** Freeing a tree removes exactly its nodes, hands each of its leaves to its freearg once, and never touches
      a node that is not allocated. */
  lemma {:induction false} FreeTree(t: FType, argp: Addr, nodes: map<Addr, Node>)
    requires Tree(t, argp, nodes)
    ensures Free(t, argp, nodes) == Freed(nodes - Own(t, argp, nodes), Leaves(t, argp, nodes), false)
  {
    if HasArgs(t) && t.Linked? && argp != NULL {
      var l, r := nodes[argp].left, nodes[argp].right;
      var ownL, ownR := Own(t.left, l, nodes), Own(t.right, r, nodes);
      FreeTree(t.left, l, nodes);
      TreeFrame(t.right, r, nodes, nodes - ownL);
      FreeTree(t.right, r, nodes - ownL);
      assert nodes - ownL - ownR - {argp} == nodes - ({argp} + ownL + ownR);
    } else {
      assert nodes - {} == nodes;
    }
  }

  // ----- making a tree -----

  ghost predicate Distinct(tape: seq<Addr>) {
    forall i, j | 0 <= i < j < |tape| && tape[i] != NULL :: tape[i] != tape[j]
  }

  /** What the allocator has still to answer does not repeat what it gave. */
  lemma {:induction false} MadeFrom(t: FType, mem: seq<Addr>, user: seq<Addr>)
    requires Distinct(mem)
    ensures var m := Make(t, mem, user);
      && Distinct(m.mem) && NULL !in m.added
      && (forall a | a in m.mem :: a in mem)
      && (forall a | a in m.added :: a in mem && a !in m.mem)
  {
    if HasArgs(t) && t.Linked? && mem != [] {
      var l := Make(t.left, mem[1..], user);
      MadeFrom(t.left, mem[1..], user);
      MadeFrom(t.right, l.mem, l.user);
    }
  }

  /** Neither side gets the node that they hang from. */
  lemma SidesApart(t: FType, p: Addr, mem: seq<Addr>, user: seq<Addr>)
    requires t.Linked? && Distinct(mem) && p !in mem
    ensures var l := Make(t.left, mem, user); var r := Make(t.right, l.mem, l.user);
      p !in l.added && p !in l.mem && p !in r.added && p !in r.mem
  {
    var l := Make(t.left, mem, user);
    MadeFrom(t.left, mem, user);
    MadeFrom(t.right, l.mem, l.user);
  }

  /** A node on top of two separate trees. */
  lemma Join(t: FType, p: Addr, l: Made, r: Made, all: map<Addr, Node>)
    requires t.Linked? && t.hasArgs && p != NULL && p !in l.added && p !in r.added && l.added.Keys !! r.added.Keys
    requires all == (l.added + r.added)[p := Node(l.res, r.res)]
    requires Tree(t.left, l.res, l.added) && Own(t.left, l.res, l.added) == l.added.Keys
    requires Tree(t.right, r.res, r.added) && Own(t.right, r.res, r.added) == r.added.Keys
    ensures Tree(t, p, all) && Own(t, p, all) == all.Keys
    ensures Leaves(t, p, all) == Leaves(t.left, l.res, l.added) + Leaves(t.right, r.res, r.added)
    ensures Complete(t, p, all) <==> Complete(t.left, l.res, l.added) && Complete(t.right, r.res, r.added)
  {
    TreeFrame(t.left, l.res, l.added, all);
    TreeFrame(t.right, r.res, r.added, all);
  }

  /** Make builds a tree of exactly the nodes it adds, and counts a failure exactly when something is missing. */
  lemma {:induction false} MakeTree(t: FType, mem: seq<Addr>, user: seq<Addr>)
    requires Distinct(mem)
    ensures var m := Make(t, mem, user);
      && Tree(t, m.res, m.added) && Own(t, m.res, m.added) == m.added.Keys
      && Leaves(t, m.res, m.added) == m.made
      && (m.err == 0 <==> Complete(t, m.res, m.added))
  {
    if HasArgs(t) && t.Linked? && Head(mem) != NULL {
      var l := Make(t.left, mem[1..], user);
      var r := Make(t.right, l.mem, l.user);
      MakeTree(t.left, mem[1..], user);
      MadeFrom(t.left, mem[1..], user);
      MakeTree(t.right, l.mem, l.user);
      MadeFrom(t.right, l.mem, l.user);
      FirstIsNew(mem);
      Join(t, mem[0], l, r, (l.added + r.added)[mem[0] := Node(l.res, r.res)]);
    }
  }

  lemma FirstIsNew(mem: seq<Addr>)
    requires Distinct(mem) && mem != [] && mem[0] != NULL
    ensures Distinct(mem[1..]) && mem[0] !in mem[1..]
  {
  }

  /** The ledger balances: for every type, every pattern of failing allocations and every memory, freeing what
      was made leaves the memory as it was, and each argument made is handed to the freearg of its leaf once. */
  lemma MakeThenFree(t: FType, nodes: map<Addr, Node>, mem: seq<Addr>, user: seq<Addr>)
    requires Distinct(mem) && forall a | a in mem :: a !in nodes
    ensures var m := Make(t, mem, user);
      Free(t, m.res, nodes + m.added) == Freed(nodes, m.made, false)
  {
    var m := Make(t, mem, user);
    MadeFrom(t, mem, user);
    MakeTree(t, mem, user);
    TreeFrame(t, m.res, m.added, nodes + m.added);
    FreeTree(t, m.res, nodes + m.added);
    assert nodes + m.added - m.added.Keys == nodes;
  }

  // ----- the recursions themselves -----

  lemma Stacked(was: map<Addr, Node>, l: map<Addr, Node>, r: map<Addr, Node>, p: Addr, a: Node, b: Node, c: Node)
    requires p !in l && p !in r
    ensures ((was[p := a] + l)[p := b] + r)[p := c] == was + (l + r)[p := c]
  {
  }

  lemma Pruned(was: map<Addr, Node>, l: set<Addr>, r: set<Addr>, p: Addr)
    ensures was - l - r - {p} == was - ({p} + l + r)
  {
  }

  class Memory {
    var nodes: map<Addr, Node>
    var mem: seq<Addr>
    var user: seq<Addr>
    var made: seq<Arg>
    var calls: seq<Arg>

    /** What malloc has still to give is not allocated. */
    ghost predicate Fresh()
      reads this
    {
      Distinct(mem) && forall a | a in mem :: a !in nodes
    }

    method Malloc() returns (p: Addr)
      modifies `mem
      ensures p == Head(old(mem)) && mem == Tail(old(mem))
    {
      p := Head(mem);
      mem := Tail(mem);
    }

    method MakeLeaf(t: FType) returns (a: Addr)
      requires t.Leaf?
      modifies `user, `made
      ensures a == Head(old(user)) && user == Tail(old(user))
      ensures made == old(made) + if t.hasFree then [Arg(t.name, a)] else []
    {
      a := Head(user);
      user := Tail(user);
      if t.hasFree { made := made + [Arg(t.name, a)]; }
    }

    /** _nc_Make_Argument; err counts on from the value it has. */
    method MakeArgument(t: FType, err: nat) returns (res: Addr, errs: nat)
      requires Fresh()
      modifies this
      ensures var m := Make(t, old(mem), old(user));
        && nodes == old(nodes) + m.added && mem == m.mem && user == m.user && made == old(made) + m.made
        && res == m.res && errs == err + m.err && calls == old(calls)
      decreases t, 1
    {
      res, errs := NULL, err;
      if HasArgs(t) {
        if t.Linked? {
          var p := Malloc();
          if p != NULL {
            errs := MakeSides(t, p, errs);
            res := p;
          } else {
            errs := errs + 1;
          }
        } else {
          res := MakeLeaf(t);
          if res == NULL { errs := errs + 1; }
        }
      }
    }

    /** The two sides of a node that has just been allocated. */
    method MakeSides(t: FType, p: Addr, err: nat) returns (errs: nat)
      requires t.Linked? && Fresh() && p != NULL && p !in nodes && p !in mem
      modifies this
      ensures var l := Make(t.left, old(mem), old(user)); var r := Make(t.right, l.mem, l.user);
        && nodes == old(nodes) + (l.added + r.added)[p := Node(l.res, r.res)] && mem == r.mem && user == r.user
        && made == old(made) + (l.made + r.made) && errs == err + (l.err + r.err) && calls == old(calls)
      decreases t, 0
    {
      ghost var l := Make(t.left, mem, user);
      ghost var r, was := Make(t.right, l.mem, l.user), nodes;
      SidesApart(t, p, mem, user);
      nodes := nodes[p := Node(NULL, NULL)];
      errs := MakeSide(t.left, p, err, true);
      errs := MakeSide(t.right, p, errs, false);
      Stacked(was, l.added, r.added, p, Node(NULL, NULL), Node(l.res, NULL), Node(l.res, r.res));
    }

    /** One side of a node, and the member that points to it. */
    method MakeSide(t: FType, p: Addr, err: nat, left: bool) returns (errs: nat)
      requires Fresh() && p != NULL && p in nodes && p !in mem && p !in Make(t, mem, user).added
      modifies this
      ensures var m := Make(t, old(mem), old(user)); var n := old(nodes[p]);
        && nodes == (old(nodes) + m.added)[p := if left then n.(left := m.res) else n.(right := m.res)]
        && mem == m.mem && user == m.user && made == old(made) + m.made && errs == err + m.err && calls == old(calls)
      ensures Fresh()
      decreases t, 2
    {
      MadeFrom(t, mem, user);
      var side;
      side, errs := MakeArgument(t, err);
      nodes := nodes[p := if left then nodes[p].(left := side) else nodes[p].(right := side)];
    }

    /** _nc_Free_Argument, on a tree. */
    method FreeArgument(t: FType, argp: Addr)
      requires Tree(t, argp, nodes)
      modifies `nodes, `calls
      ensures nodes == old(nodes) - Own(t, argp, old(nodes))
      ensures calls == old(calls) + Leaves(t, argp, old(nodes))
      decreases t, 1
    {
      if HasArgs(t) {
        if t.Linked? {
          if argp != NULL { FreeSides(t, argp); }
        } else if t.hasFree {
          calls := calls + [Arg(t.name, argp)];
        }
      }
    }

    method FreeSides(t: FType, argp: Addr)
      requires t.Linked? && t.hasArgs && argp != NULL && Tree(t, argp, nodes)
      modifies `nodes, `calls
      ensures nodes == old(nodes) - Own(t, argp, old(nodes))
      ensures calls == old(calls) + Leaves(t, argp, old(nodes))
      decreases t, 0
    {
      ghost var was, l, r := nodes, nodes[argp].left, nodes[argp].right;
      FreeArgument(t.left, nodes[argp].left);
      TreeFrame(t.right, r, was, nodes);
      FreeArgument(t.right, nodes[argp].right);
      nodes := nodes - {argp};
      Pruned(was, Own(t.left, l, was), Own(t.right, r, was), argp);
    }

    /** The argument part of set_field_type: if anything fails, everything made is released. */
    method Attach(t: FType) returns (arg: Addr, ok: bool)
      requires Fresh()
      modifies this
      ensures ok <==> Make(t, old(mem), old(user)).err == 0
      ensures ok ==> Tree(t, arg, nodes) && Complete(t, arg, nodes) && calls == old(calls)
      ensures !ok ==> arg == NULL && nodes == old(nodes)
      ensures !ok ==> exists args: seq<Arg> :: made == old(made) + args && calls == old(calls) + args
    {
      ghost var m, was := Make(t, mem, user), nodes;
      var err;
      MadeFrom(t, mem, user);
      MakeTree(t, mem, user);
      arg, err := MakeArgument(t, 0);
      TreeFrame(t, arg, m.added, nodes);
      ok := err == 0;
      if !ok {
        FreeArgument(t, arg);
        arg := NULL;
        assert nodes == was;
        assert made == old(made) + m.made && calls == old(calls) + m.made;
      }
    }
  }
}
