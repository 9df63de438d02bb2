/** What the field and fieldtype calls guarantee in every store that a program can reach. */
module FieldTheorems {
  import opened FormBase
  import opened FieldStore
  import opened FieldRings
  import opened FieldRefs
  import opened FieldRuns

  /** Two fields share a buffer exactly when `link` leads from one to the other. */
  lemma SharingIsLinking(s: Store, f: Addr, g: Addr)
    requires FieldsSound(s) && f in s.fields && g in s.fields
    ensures s.fields[f].buf == s.fields[g].buf <==> exists n: nat :: Follow(s.fields, f, n) == g
  {
    var rings :| FieldsOk(s, rings);
    SameBufferIff(s.fields, rings, f, g);
  }

  /** The buffers allocated are exactly those of the fields: nothing leaks, nothing is used after it is freed. */
  lemma BuffersExactly(s: Store, b: Addr)
    requires FieldsSound(s)
    ensures b in s.bufs <==> exists f :: f in s.fields && s.fields[f].buf == b
  {
    var rings :| FieldsOk(s, rings);
    if b in s.bufs {
      assert b in rings && Loop(s.fields, rings[b]);
      assert rings[b][0] in rings[b];
      assert s.fields[rings[b][0]].buf == b;
    }
    forall f | f in s.fields && s.fields[f].buf == b ensures b in s.bufs { assert b in rings; }
  }

  /** free_field frees the buffer exactly when no other field uses it. */
  lemma BufferGoesWithLast(s: Store, f: Addr)
    requires FieldsSound(s) && f in s.fields && !s.fields[f].owned
    ensures s.fields[f].buf in s.bufs
    ensures s.fields[f].buf !in FieldFreed(s, f).store.bufs <==>
            forall g | g in s.fields && g != f :: s.fields[g].buf != s.fields[f].buf
  {
    var rings :| FieldsOk(s, rings);
    AloneIff(s.fields, rings, f);
    BuffersExactly(s, s.fields[f].buf);
    FreedFields(s, f);
  }

  /** free_fieldtype succeeds exactly when nothing refers to the type and it is not built in. */
  lemma FreeableIff(s: Store, t: Addr)
    requires RefsExact(s) && t in s.types && t != NULL
    ensures TypeFreed(s, t).err == E_OK <==>
            && !s.types[t].resident && s.defType != t
            && (forall f | f in s.fields :: s.fields[f].typ != t)
            && (forall u | u in s.types && s.types[u].linked :: s.types[u].left != t && s.types[u].right != t)
  {
    assert s.types[t].ref == References(s, t);
    if s.types[t].ref == 0 {
      NobodyHolds(s, t);
    } else if !s.types[t].resident && s.defType != t && Holders(s.fields, t) == {} && Lefts(s.types, t) == {} {
      assert Rights(s.types, t) != {};
      var u :| u in Rights(s.types, t);
    } else if !s.types[t].resident && s.defType != t && Holders(s.fields, t) == {} {
      var u :| u in Lefts(s.types, t);
    } else if !s.types[t].resident && s.defType != t {
      var f :| f in Holders(s.fields, t);
    }
  }

  /** In every store of every run, each type has as many references as are counted, and no field, default
      field or linked type points to a type that has been freed. */
  lemma CountsExact(stores: seq<Store>, ops: seq<Op>, i: nat)
    requires Runs(stores, ops) && Initial(stores[0]) && i < |stores|
    ensures RefsExact(stores[i]) && NoDangling(stores[i])
  {
    RunKeeps(stores, ops, i);
  }

  /** Built-in types outlive every run. */
  lemma {:induction false} BuiltinsStay(stores: seq<Store>, ops: seq<Op>, i: nat, t: Addr)
    requires Runs(stores, ops) && Initial(stores[0]) && i < |stores| && t in stores[0].types
    ensures t in stores[i].types && stores[i].types[t].resident && stores[i].types[t].ref > 0
  {
    if i > 0 {
      BuiltinsStay(stores, ops, i - 1, t);
      BuiltinStep(stores[i - 1], ops[i - 1], t);
    }
    CountsExact(stores, ops, i);
    assert stores[i].types[t].ref == References(stores[i], t);
  }

  lemma BuiltinStep(s: Store, op: Op, t: Addr)
    requires Allowed(s, op) && t in s.types && s.types[t].resident
    ensures t in Do(s, op).store.types && Do(s, op).store.types[t].resident
  {
  }

  // ----- calls undone -----

  lemma CountedBack(types: map<Addr, TypeCell>, t: Addr)
    ensures Counted(Counted(types, t, 1), t, -1) == types
  {
    if t in types && t != NULL {
      assert types[t].(ref := types[t].ref + 1).(ref := types[t].ref + 1 - 1) == types[t];
    }
  }

  /** Nobody is linked to an address that is not a field's. */
  lemma LinksLive(s: Store, at: Addr)
    requires FieldsSound(s) && at !in s.fields
    ensures forall g | g in s.fields :: s.fields[g].link != at
  {
    var rings :| FieldsOk(s, rings);
    forall g | g in s.fields ensures s.fields[g].link != at {
      var ring := rings[s.fields[g].buf];
      var k :| 0 <= k < |ring| && ring[k] == g;
      assert s.fields[ring[k]].link == ring[if k + 1 < |ring| then k + 1 else 0];
      assert s.fields[g].link in ring;
    }
  }

  lemma SplicedBack(fields: map<Addr, FieldCell>, f: Addr, at: Addr, cell: FieldCell)
    requires f in fields && at !in fields && forall g | g in fields :: fields[g].link != at
    ensures Bypassed(Spliced(fields, f, at, cell), at) == fields
  {
    var back := Bypassed(Spliced(fields, f, at, cell), at);
    assert back.Keys == fields.Keys;
    forall g | g in fields ensures back[g] == fields[g] {
      if g == f { assert fields[f].(link := at).(link := fields[f].link) == fields[f]; }
    }
  }

  /** Freeing a field that was just linked leaves the store as it was before the link. */
  lemma LinkThenFree(s: Store, f: Addr, frow: int, fcol: int, at: Addr, copied: bool)
    requires Sound(s) && (f == NULL || f in s.fields) && at !in s.fields
    requires FieldLinked(s, f, frow, fcol, at, copied).err == E_OK
    ensures FieldFreed(FieldLinked(s, f, frow, fcol, at, copied).store, at) == Outcome(s, NULL, E_OK)
  {
    var src := s.fields[f];
    var cell := FieldCell(NULL, src.buf, src.typ, false, ToShort(frow), ToShort(fcol), src.shape);
    LinksLive(s, at);
    SplicedBack(s.fields, f, at, cell);
    CountedBack(s.types, src.typ);
  }

  lemma AddedBack(fields: map<Addr, FieldCell>, at: Addr, cell: FieldCell)
    requires at !in fields && forall g | g in fields :: fields[g].link != at
    ensures Bypassed(fields[at := cell], at) == fields
  {
  }

  /** Freeing a field that was just made gives back its cell, its buffer and its reference. */
  lemma NewThenFree(s: Store, g: Geometry, at: Addr, copied: bool, bufAt: Addr)
    requires Sound(s) && at !in s.fields && bufAt !in s.bufs
    requires FieldMade(s, g, at, copied, bufAt).err == E_OK
    ensures FieldFreed(FieldMade(s, g, at, copied, bufAt).store, at) == Outcome(s, NULL, E_OK)
  {
    var cell := FieldCell(at, bufAt, s.defType, false, ToShort(g.frow), ToShort(g.fcol), ShapeOf(g));
    LinksLive(s, at);
    AddedBack(s.fields, at, cell);
    CountedBack(s.types, s.defType);
    BufferBack(s.bufs, bufAt, Prefilled(Cells(ShapeOf(g)), 1 + g.nbuf));
  }

  lemma BufferBack(bufs: map<Addr, string>, b: Addr, buf: string)
    requires b !in bufs
    ensures bufs[b := buf] - {b} == bufs
  {
  }

  lemma CountedCommutes(types: map<Addr, TypeCell>, t: Addr, n: int, u: Addr, m: int)
    ensures Counted(Counted(types, t, n), u, m) == Counted(Counted(types, u, m), t, n)
  {
  }

  lemma CountedBeside(types: map<Addr, TypeCell>, at: Addr, cell: TypeCell, t: Addr, n: int)
    requires at !in types && t in types
    ensures Counted(types[at := cell], t, n) == Counted(types, t, n)[at := cell]
  {
  }

  lemma OperandsBack(types: map<Addr, TypeCell>, t1: Addr, t2: Addr, at: Addr, cell: TypeCell)
    requires at !in types && t1 in types && t2 in types
    ensures Counted(Counted(Counted(Counted(types, t1, 1), t2, 1)[at := cell], t1, -1), t2, -1) == types[at := cell]
  {
    var up := Counted(types, t1, 1);
    CountedBeside(Counted(up, t2, 1), at, cell, t1, -1);
    CountedCommutes(up, t2, 1, t1, -1);
    CountedBack(types, t1);
    CountedBeside(Counted(types, t2, 1), at, cell, t2, -1);
    CountedBack(types, t2);
  }

  /** Freeing a linked type that was just made gives its operands their counts back. */
  lemma LinkTypesThenFree(s: Store, t1: Addr, t2: Addr, at: Addr)
    requires NoDangling(s) && at !in s.types && at != NULL && t1 in s.types && t2 in s.types
    ensures TypeFreed(TypesLinked(s, t1, t2, at).store, at) == Outcome(s, NULL, E_OK)
  {
    var cell := TypeCell(0, true, t1, t2, s.types[t1].hasArgs || s.types[t2].hasArgs, false, false);
    OperandsBack(s.types, t1, t2, at, cell);
    assert s.types[at := cell] - {at} == s.types;
  }
}
