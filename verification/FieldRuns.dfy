/** Any sequence of library calls on fields and fieldtypes, failing ones included. */
module FieldRuns {
  import opened FormBase
  import opened FieldStore
  import opened FieldRings
  import opened FieldRefs

  /** A call, with what the allocator and the callbacks of the types answer during it. */
  datatype Op =
    | NewField(g: Geometry, at: Addr, copied: bool, bufAt: Addr)
    | DupField(f: Addr, frow: int, fcol: int, at: Addr, copied: bool, bufAt: Addr, rest: string)
    | LinkField(f: Addr, frow: int, fcol: int, at: Addr, copied: bool)
    | FreeField(f: Addr)
    | SetFieldType(f: Addr, t: Addr, made: bool)
    | NewFieldtype(given: bool, at: Addr)
    | LinkFieldtype(t1: Addr, t2: Addr, at: Addr)
    | FreeFieldtype(t: Addr)
    | SetFieldtypeArg(t: Addr, hasFree: bool) // set_fieldtype_arg: the type has arguments from now on
    | SetOwner(f: Addr, owned: bool)          // a form takes or releases the field

  /** The caller passes null or a live pointer, and the allocator gives null or an address not in use. */
  predicate Allowed(s: Store, op: Op) {
    match op
    case NewField(_, at, _, bufAt) => at !in s.fields && bufAt !in s.bufs
    case DupField(f, _, _, at, _, bufAt, _) => (f == NULL || f in s.fields) && at !in s.fields && bufAt !in s.bufs
    case LinkField(f, _, _, at, _) => (f == NULL || f in s.fields) && at !in s.fields
    case FreeField(f) => f == NULL || f in s.fields
    case SetFieldType(f, t, _) => (f == NULL || f in s.fields) && (t == NULL || t in s.types)
    case NewFieldtype(_, at) => at !in s.types
    case LinkFieldtype(t1, t2, at) => (t1 == NULL || t1 in s.types) && (t2 == NULL || t2 in s.types) && at !in s.types
    case FreeFieldtype(t) => t == NULL || t in s.types
    case SetFieldtypeArg(t, _) => t in s.types
    case SetOwner(f, _) => f in s.fields
  }

  function ArgsGiven(types: map<Addr, TypeCell>, t: Addr, hasFree: bool): map<Addr, TypeCell>
    requires t in types
  {
    types[t := types[t].(hasArgs := true, hasFree := hasFree)]
  }

  function Do(s: Store, op: Op): Outcome
    requires Allowed(s, op)
  {
    match op
    case NewField(g, at, copied, bufAt) => FieldMade(s, g, at, copied, bufAt)
    case DupField(f, frow, fcol, at, copied, bufAt, rest) => FieldCopied(s, f, frow, fcol, at, copied, bufAt, rest)
    case LinkField(f, frow, fcol, at, copied) => FieldLinked(s, f, frow, fcol, at, copied)
    case FreeField(f) => FieldFreed(s, f)
    case SetFieldType(f, t, made) => TypeSet(s, f, t, made)
    case NewFieldtype(given, at) => TypeMade(s, given, at)
    case LinkFieldtype(t1, t2, at) => TypesLinked(s, t1, t2, at)
    case FreeFieldtype(t) => TypeFreed(s, t)
    case SetFieldtypeArg(t, hasFree) => Outcome(s.(types := ArgsGiven(s.types, t, hasFree)), NULL, E_OK)
    case SetOwner(f, owned) => Outcome(s.(fields := s.fields[f := s.fields[f].(owned := owned)]), NULL, E_OK)
  }

  // ----- each call keeps the store sound -----

  /** A new field on a ring of its own. */
  lemma AloneFieldsSound(s: Store, now: Store, at: Addr, cell: FieldCell, buf: string)
    requires FieldsSound(s) && at != NULL && at !in s.fields && cell.link == at
    requires cell.buf != NULL && cell.buf !in s.bufs && Total(cell.shape) <= |buf|
    requires now.fields == s.fields[at := cell] && now.bufs == s.bufs[cell.buf := buf]
    ensures FieldsSound(now)
  {
    var rings :| FieldsOk(s, rings);
    AloneKeepsRings(s.fields, rings, at, cell);
    AloneBuffered(s.fields, s.bufs, at, cell, buf);
    assert FieldsOk(now, AloneRings(rings, at, cell.buf));
  }

  lemma AloneBuffered(fields: map<Addr, FieldCell>, bufs: map<Addr, string>, at: Addr, cell: FieldCell, buf: string)
    requires Buffered(fields, bufs) && cell.buf !in bufs && Total(cell.shape) <= |buf|
    ensures Buffered(fields[at := cell], bufs[cell.buf := buf])
  {
  }

  lemma PutBuffered(fields: map<Addr, FieldCell>, bufs: map<Addr, string>, f: Addr, cell: FieldCell)
    requires Buffered(fields, bufs) && cell.buf in bufs && Total(cell.shape) <= |bufs[cell.buf]|
    ensures Buffered(fields[f := cell], bufs)
  {
  }

  lemma BypassedBuffered(fields: map<Addr, FieldCell>, bufs: map<Addr, string>, f: Addr, left: map<Addr, string>)
    requires Buffered(fields, bufs) && f in fields
    requires forall g | g in fields && g != f && fields[g].buf in bufs ::
      fields[g].buf in left && left[fields[g].buf] == bufs[fields[g].buf]
    ensures Buffered(Bypassed(fields, f), left)
  {
  }

  /** Without a field that is alone on its ring, nobody needs its buffer. */
  lemma AloneBuffer(fields: map<Addr, FieldCell>, bufs: map<Addr, string>, rings: map<Addr, seq<Addr>>, f: Addr)
    requires Rings(fields, rings) && Buffered(fields, bufs) && f in fields && fields[f].link == f
    ensures Buffered(Bypassed(fields, f), bufs - {fields[f].buf})
  {
    AloneIff(fields, rings, f);
    BypassedBuffered(fields, bufs, f, bufs - {fields[f].buf});
  }

  lemma AddedTypesOk(s: Store, now: Store, at: Addr, cell: FieldCell, rank: map<Addr, nat>)
    requires TypesOk(s, rank) && at !in s.fields && Typed(s.types, cell.typ)
    requires now.fields == s.fields[at := cell] && now.types == Counted(s.types, cell.typ, 1)
      && now.defType == s.defType
    ensures TypesOk(now, rank)
  {
    CountedOnce(s.types, cell.typ);
    PutTypesOk(s, now, at, cell, rank);
  }

  lemma AddedTypesSound(s: Store, now: Store, at: Addr, cell: FieldCell)
    requires TypesSound(s) && at !in s.fields && (Typed(s.types, cell.typ) || cell.typ == s.defType)
    requires now.fields == s.fields[at := cell] && now.types == Counted(s.types, cell.typ, 1)
      && now.defType == s.defType
    ensures TypesSound(now)
  {
    var rank :| TypesOk(s, rank);
    AddedTypesOk(s, now, at, cell, rank);
  }

  lemma NewKeepsFields(s: Store, g: Geometry, at: Addr, copied: bool, bufAt: Addr)
    requires FieldsSound(s) && at !in s.fields && bufAt !in s.bufs
    ensures FieldsSound(FieldMade(s, g, at, copied, bufAt).store)
  {
    var o := FieldMade(s, g, at, copied, bufAt);
    if o.err == E_OK {
      var cell := FieldCell(at, bufAt, s.defType, false, ToShort(g.frow), ToShort(g.fcol), ShapeOf(g));
      PrefilledLength(Cells(ShapeOf(g)), 1 + g.nbuf);
      AloneFieldsSound(s, o.store, at, cell, Prefilled(Cells(ShapeOf(g)), 1 + g.nbuf));
    }
  }

  lemma NewKeepsTypes(s: Store, g: Geometry, at: Addr, copied: bool, bufAt: Addr)
    requires TypesSound(s) && at !in s.fields && bufAt !in s.bufs
    ensures TypesSound(FieldMade(s, g, at, copied, bufAt).store)
  {
    var o := FieldMade(s, g, at, copied, bufAt);
    if o.err == E_OK {
      var cell := FieldCell(at, bufAt, s.defType, false, ToShort(g.frow), ToShort(g.fcol), ShapeOf(g));
      AddedTypesSound(s, o.store, at, cell);
    } else {
      assert o.store == s;
    }
  }

  lemma DupKeepsFields(s: Store, f: Addr, frow: int, fcol: int, at: Addr, copied: bool, bufAt: Addr, rest: string)
    requires FieldsSound(s) && (f == NULL || f in s.fields) && at !in s.fields && bufAt !in s.bufs
    ensures FieldsSound(FieldCopied(s, f, frow, fcol, at, copied, bufAt, rest).store)
  {
    var o := FieldCopied(s, f, frow, fcol, at, copied, bufAt, rest);
    if o.err == E_OK {
      var src := s.fields[f];
      var cell := FieldCell(at, bufAt, src.typ, false, ToShort(frow), ToShort(fcol), src.shape);
      BufferCopied(s, f);
      AloneFieldsSound(s, o.store, at, cell, Copied(s.bufs, src.buf, Total(src.shape)) + rest);
    }
  }

  /** What dup_field copies is there. */
  lemma BufferCopied(s: Store, f: Addr)
    requires FieldsSound(s) && f in s.fields
    ensures s.fields[f].buf in s.bufs && Total(s.fields[f].shape) <= |s.bufs[s.fields[f].buf]|
    ensures |Copied(s.bufs, s.fields[f].buf, Total(s.fields[f].shape))| == Total(s.fields[f].shape)
  {
    var rings :| FieldsOk(s, rings);
    assert Buffered(s.fields, s.bufs);
  }

  lemma DupKeepsTypes(s: Store, f: Addr, frow: int, fcol: int, at: Addr, copied: bool, bufAt: Addr, rest: string)
    requires TypesSound(s) && (f == NULL || f in s.fields) && at !in s.fields && bufAt !in s.bufs
    ensures TypesSound(FieldCopied(s, f, frow, fcol, at, copied, bufAt, rest).store)
  {
    var o := FieldCopied(s, f, frow, fcol, at, copied, bufAt, rest);
    if o.err == E_OK {
      var rank :| TypesOk(s, rank);
      var src := s.fields[f];
      var cell := FieldCell(at, bufAt, src.typ, false, ToShort(frow), ToShort(fcol), src.shape);
      FieldTyped(s, f);
      AddedTypesOk(s, o.store, at, cell, rank);
    }
  }

  lemma FieldTyped(s: Store, f: Addr)
    requires AllTyped(s.fields, s.types) && f in s.fields
    ensures Typed(s.types, s.fields[f].typ)
  {
  }

  lemma LinkKeepsFields(s: Store, f: Addr, frow: int, fcol: int, at: Addr, copied: bool)
    requires FieldsSound(s) && (f == NULL || f in s.fields) && at !in s.fields
    ensures FieldsSound(FieldLinked(s, f, frow, fcol, at, copied).store)
  {
    var o := FieldLinked(s, f, frow, fcol, at, copied);
    if o.err == E_OK {
      var src := s.fields[f];
      var cell := FieldCell(NULL, src.buf, src.typ, false, ToShort(frow), ToShort(fcol), src.shape);
      SplicedFieldsSound(s, o.store, f, at, cell);
    }
  }

  lemma LinkKeepsTypes(s: Store, f: Addr, frow: int, fcol: int, at: Addr, copied: bool)
    requires TypesSound(s) && (f == NULL || f in s.fields) && at !in s.fields
    ensures TypesSound(FieldLinked(s, f, frow, fcol, at, copied).store)
  {
    var o := FieldLinked(s, f, frow, fcol, at, copied);
    if o.err == E_OK {
      var rank :| TypesOk(s, rank);
      var src := s.fields[f];
      var cell := FieldCell(NULL, src.buf, src.typ, false, ToShort(frow), ToShort(fcol), src.shape);
      SplicedTypesOk(s, o.store, f, at, cell, rank);
    }
  }

  lemma SplicedFieldsSound(s: Store, now: Store, f: Addr, at: Addr, cell: FieldCell)
    requires FieldsSound(s) && at != NULL && at !in s.fields && f in s.fields
    requires cell.buf == s.fields[f].buf && cell.shape == s.fields[f].shape
    requires now.fields == Spliced(s.fields, f, at, cell) && now.bufs == s.bufs
    ensures FieldsSound(now)
  {
    var rings :| FieldsOk(s, rings);
    var after := LinkKeepsRings(s.fields, rings, f, at, cell);
    BufferCopied(s, f);
    PutBuffered(s.fields, s.bufs, f, s.fields[f].(link := at));
    PutBuffered(s.fields[f := s.fields[f].(link := at)], s.bufs, at, cell.(link := s.fields[f].link));
    assert FieldsOk(now, after);
  }

  lemma SplicedTypesOk(s: Store, now: Store, f: Addr, at: Addr, cell: FieldCell, rank: map<Addr, nat>)
    requires TypesOk(s, rank) && f in s.fields && at !in s.fields && cell.typ == s.fields[f].typ
    requires now.fields == Spliced(s.fields, f, at, cell) && now.types == Counted(s.types, cell.typ, 1)
    requires now.defType == s.defType
    ensures TypesOk(now, rank)
  {
    var relinked := s.fields[f].(link := at);
    var middle := s.(fields := s.fields[f := relinked]);
    assert Typed(s.types, s.fields[f].typ);
    PutTypesOk(s, middle, f, relinked, rank);
    AddedTypesOk(middle, now, at, cell.(link := s.fields[f].link), rank);
  }

  lemma FreeKeepsFields(s: Store, f: Addr)
    requires FieldsSound(s) && (f == NULL || f in s.fields)
    ensures FieldsSound(FieldFreed(s, f).store)
  {
    if f != NULL && !s.fields[f].owned {
      FreedFields(s, f);
      var now := FieldFreed(s, f).store;
      if s.fields[f].link == f { AloneFreed(s, now, f); } else { SharerFreed(s, now, f); }
    }
  }

  lemma FreedFields(s: Store, f: Addr)
    requires f in s.fields && f != NULL && !s.fields[f].owned
    ensures FieldFreed(s, f).store.fields == Bypassed(s.fields, f)
    ensures FieldFreed(s, f).store.bufs == if s.fields[f].link == f then s.bufs - {s.fields[f].buf} else s.bufs
  {
  }

  lemma FreeKeepsTypes(s: Store, f: Addr)
    requires TypesSound(s) && (f == NULL || f in s.fields)
    ensures TypesSound(FieldFreed(s, f).store)
  {
    var o := FieldFreed(s, f);
    if o.err == E_OK {
      var rank :| TypesOk(s, rank);
      CountedOnce(s.types, s.fields[f].typ);
      BypassedTypesOk(s, o.store, f, rank);
    }
  }

  /** The last field of a buffer goes, and the buffer with it. */
  lemma AloneFreed(s: Store, now: Store, f: Addr)
    requires FieldsSound(s) && f in s.fields && s.fields[f].link == f
    requires now.fields == Bypassed(s.fields, f) && now.bufs == s.bufs - {s.fields[f].buf}
    ensures FieldsSound(now)
  {
    var rings :| FieldsOk(s, rings);
    var after := FreeKeepsRings(s.fields, rings, f);
    AloneBuffer(s.fields, s.bufs, rings, f);
    assert FieldsOk(now, after);
  }

  /** A field goes whose buffer others use. */
  lemma SharerFreed(s: Store, now: Store, f: Addr)
    requires FieldsSound(s) && f in s.fields && s.fields[f].link != f
    requires now.fields == Bypassed(s.fields, f) && now.bufs == s.bufs
    ensures FieldsSound(now)
  {
    var rings :| FieldsOk(s, rings);
    var after := FreeKeepsRings(s.fields, rings, f);
    BypassedBuffered(s.fields, s.bufs, f, s.bufs);
    assert FieldsOk(now, after);
  }

  /** Changing type or owner of a field leaves its ring alone. */
  lemma PutFieldsSound(s: Store, now: Store, f: Addr, cell: FieldCell)
    requires FieldsSound(s) && f in s.fields && now.fields == s.fields[f := cell] && now.bufs == s.bufs
    requires cell.link == s.fields[f].link && cell.buf == s.fields[f].buf && cell.shape == s.fields[f].shape
    ensures FieldsSound(now)
  {
    var rings :| FieldsOk(s, rings);
    BufferCopied(s, f);
    SameLinksKeepRings(s.fields, rings, f, cell);
    PutBuffered(s.fields, s.bufs, f, cell);
    assert FieldsOk(now, rings);
  }

  lemma SetTypeKeepsFields(s: Store, f: Addr, t: Addr, made: bool)
    requires FieldsSound(s) && (f == NULL || f in s.fields)
    requires t == NULL || t in s.types
    ensures FieldsSound(TypeSet(s, f, t, made).store)
  {
    var now := TypeSet(s, f, t, made).store;
    if f == NULL {
      SameFieldsSound(s, now);
    } else {
      PutFieldsSound(s, now, f, now.fields[f]);
    }
  }

  lemma SetTypeKeepsTypes(s: Store, f: Addr, t: Addr, made: bool)
    requires TypesSound(s) && (f == NULL || f in s.fields) && (t == NULL || t in s.types)
    ensures TypesSound(TypeSet(s, f, t, made).store)
  {
    var now := TypeSet(s, f, t, made).store;
    var typ := if ArgsReady(s.types, t, made) then t else NULL;
    var rank :| TypesOk(s, rank);
    if f == NULL {
      CountedMoved(s.types, s.defType, typ);
      DefaultTypesOk(s, now, rank);
    } else {
      CountedMoved(s.types, s.fields[f].typ, typ);
      PutTypesOk(s, now, f, s.fields[f].(typ := typ), rank);
    }
  }

  lemma DefaultTypesOk(s: Store, now: Store, rank: map<Addr, nat>)
    requires TypesOk(s, rank) && Typed(s.types, now.defType) && now.fields == s.fields
    requires Recounted(s.types, now.types, multiset{s.defType}, multiset{now.defType})
    ensures TypesOk(now, rank)
  {
    DefaultRecount(s, now);
    RecountedGraph(s.types, now.types, multiset{s.defType}, multiset{now.defType}, rank);
    Undangled(s, now, multiset{s.defType}, multiset{now.defType});
  }

  /** Calls on types leave the fields alone. */
  lemma SameFieldsSound(s: Store, now: Store)
    requires FieldsSound(s) && now.fields == s.fields && now.bufs == s.bufs
    ensures FieldsSound(now)
  {
    var rings :| FieldsOk(s, rings);
    assert FieldsOk(now, rings);
  }

  lemma MakeTypeKeepsTypes(s: Store, given: bool, at: Addr)
    requires TypesSound(s) && at !in s.types
    ensures TypesSound(TypeMade(s, given, at).store)
  {
    var o := TypeMade(s, given, at);
    if o.err == E_OK {
      var rank :| TypesOk(s, rank);
      var after := AddedTypeOk(s, o.store, at, TypeCell(0, false, NULL, NULL, false, false, false), s.types, rank);
    }
  }

  lemma AddedTypeOk(s: Store, now: Store, at: Addr, cell: TypeCell, counted: map<Addr, TypeCell>, rank: map<Addr, nat>)
    returns (after: map<Addr, nat>)
    requires TypesOk(s, rank) && at !in s.types && at != NULL && cell.ref == 0 && !cell.resident
    requires cell.linked ==> cell.left in s.types && cell.right in s.types
    requires Recounted(s.types, counted, multiset{}, Operands(cell)) && now == s.(types := counted[at := cell])
    ensures TypesOk(now, after)
  {
    TypeAdded(s, now, at, cell, counted);
    RecountedGraph(s.types, counted, multiset{}, Operands(cell), rank);
    after := RankAdded(counted, rank, at, cell);
  }

  lemma LinkTypesKeepsTypes(s: Store, t1: Addr, t2: Addr, at: Addr)
    requires TypesSound(s) && at !in s.types
    requires (t1 == NULL || t1 in s.types) && (t2 == NULL || t2 in s.types)
    ensures TypesSound(TypesLinked(s, t1, t2, at).store)
  {
    var o := TypesLinked(s, t1, t2, at);
    if o.err == E_OK {
      var rank :| TypesOk(s, rank);
      var cell := TypeCell(0, true, t1, t2, s.types[t1].hasArgs || s.types[t2].hasArgs, false, false);
      CountedBothUp(s.types, t1, t2);
      var after := AddedTypeOk(s, o.store, at, cell, Counted(Counted(s.types, t1, 1), t2, 1), rank);
    }
  }

  lemma FreeTypeKeepsTypes(s: Store, t: Addr)
    requires TypesSound(s) && (t == NULL || t in s.types)
    ensures TypesSound(TypeFreed(s, t).store)
  {
    var o := TypeFreed(s, t);
    if o.err == E_OK {
      var rank :| TypesOk(s, rank);
      var c := s.types[t];
      CountedBothDown(s.types, c.left, c.right);
      var counted := if c.linked then Counted(Counted(s.types, c.left, -1), c.right, -1) else s.types;
      DroppedTypeOk(s, o.store, t, counted, rank);
    }
  }

  lemma DroppedTypeOk(s: Store, now: Store, t: Addr, counted: map<Addr, TypeCell>, rank: map<Addr, nat>)
    requires TypesOk(s, rank) && t in s.types && s.types[t].ref == 0
    requires Recounted(s.types, counted, Operands(s.types[t]), multiset{}) && now == s.(types := counted - {t})
    ensures TypesOk(now, rank)
  {
    TypeDropped(s, now, t, counted);
    RecountedGraph(s.types, counted, Operands(s.types[t]), multiset{}, rank);
    RankSame(counted, now.types, rank);
  }

  lemma GiveArgsKeepsTypes(s: Store, t: Addr, hasFree: bool)
    requires TypesSound(s) && t in s.types
    ensures TypesSound(s.(types := ArgsGiven(s.types, t, hasFree)))
  {
    var now := s.(types := ArgsGiven(s.types, t, hasFree));
    var rank :| TypesOk(s, rank);
    GivenArgs(s.types, t, hasFree, s.defType);
    DefaultTypesOk(s, now, rank);
  }

  lemma GivenArgs(types: map<Addr, TypeCell>, t: Addr, hasFree: bool, d: Addr)
    requires t in types
    ensures Recounted(types, ArgsGiven(types, t, hasFree), multiset{d}, multiset{d})
  {
  }

  lemma SetOwnerKeepsFields(s: Store, f: Addr, owned: bool)
    requires FieldsSound(s) && f in s.fields
    ensures FieldsSound(s.(fields := s.fields[f := s.fields[f].(owned := owned)]))
  {
    var cell := s.fields[f].(owned := owned);
    PutFieldsSound(s, s.(fields := s.fields[f := cell]), f, cell);
  }

  lemma SetOwnerKeepsTypes(s: Store, f: Addr, owned: bool)
    requires TypesSound(s) && f in s.fields
    ensures TypesSound(s.(fields := s.fields[f := s.fields[f].(owned := owned)]))
  {
    var cell := s.fields[f].(owned := owned);
    var rank :| TypesOk(s, rank);
    FieldTyped(s, f);
    PutTypesOk(s, s.(fields := s.fields[f := cell]), f, cell, rank);
  }

  lemma DoKeepsFields(s: Store, op: Op)
    requires FieldsSound(s) && Allowed(s, op)
    ensures FieldsSound(Do(s, op).store)
  {
    match op
    case NewField(g, at, copied, bufAt) => NewKeepsFields(s, g, at, copied, bufAt);
    case DupField(f, frow, fcol, at, copied, bufAt, rest) => DupKeepsFields(s, f, frow, fcol, at, copied, bufAt, rest);
    case LinkField(f, frow, fcol, at, copied) => LinkKeepsFields(s, f, frow, fcol, at, copied);
    case FreeField(f) => FreeKeepsFields(s, f);
    case SetFieldType(f, t, made) => SetTypeKeepsFields(s, f, t, made);
    case SetOwner(f, owned) => SetOwnerKeepsFields(s, f, owned);
    case _ =>
      TypeCalls(s, op);
      SameFieldsSound(s, Do(s, op).store);
  }

  lemma TypeCalls(s: Store, op: Op)
    requires Allowed(s, op)
    requires op.NewFieldtype? || op.LinkFieldtype? || op.FreeFieldtype? || op.SetFieldtypeArg?
    ensures Do(s, op).store.fields == s.fields && Do(s, op).store.bufs == s.bufs
  {
  }

  lemma DoKeepsTypes(s: Store, op: Op)
    requires TypesSound(s) && Allowed(s, op)
    ensures TypesSound(Do(s, op).store)
  {
    match op
    case NewField(g, at, copied, bufAt) => NewKeepsTypes(s, g, at, copied, bufAt);
    case DupField(f, frow, fcol, at, copied, bufAt, rest) => DupKeepsTypes(s, f, frow, fcol, at, copied, bufAt, rest);
    case LinkField(f, frow, fcol, at, copied) => LinkKeepsTypes(s, f, frow, fcol, at, copied);
    case FreeField(f) => FreeKeepsTypes(s, f);
    case SetFieldType(f, t, made) => SetTypeKeepsTypes(s, f, t, made);
    case NewFieldtype(given, at) => MakeTypeKeepsTypes(s, given, at);
    case LinkFieldtype(t1, t2, at) => LinkTypesKeepsTypes(s, t1, t2, at);
    case FreeFieldtype(t) => FreeTypeKeepsTypes(s, t);
    case SetFieldtypeArg(t, hasFree) => GiveArgsKeepsTypes(s, t, hasFree);
    case SetOwner(f, owned) => SetOwnerKeepsTypes(s, f, owned);
  }

  /** Every call, whatever it answers, leaves a sound store. */
  lemma DoKeeps(s: Store, op: Op)
    requires Sound(s) && Allowed(s, op)
    ensures Sound(Do(s, op).store)
  {
    DoKeepsFields(s, op);
    DoKeepsTypes(s, op);
  }

  // ----- whole runs -----

  /** The library before the first call: only the built-in types, each with the one reference it is born with. */
  predicate Initial(s: Store) {
    && s.fields == map[] && s.bufs == map[] && s.defType == NULL && NULL !in s.types
    && forall t | t in s.types :: s.types[t].resident && s.types[t].ref == 1 && !s.types[t].linked
  }

  /** The stores that a sequence of calls goes through, each call allowed where it is made. */
  predicate Runs(stores: seq<Store>, ops: seq<Op>) {
    && |stores| == |ops| + 1
    && forall i | 0 <= i < |ops| :: Allowed(stores[i], ops[i]) && stores[i + 1] == Do(stores[i], ops[i]).store
  }

  lemma InitialSound(s: Store)
    requires Initial(s)
    ensures Sound(s)
  {
    forall t | t in s.types ensures s.types[t].ref == References(s, t) {
      assert Holders(s.fields, t) == {} && Lefts(s.types, t) == {} && Rights(s.types, t) == {};
    }
    var rings: map<Addr, seq<Addr>>, rank: map<Addr, nat> := map[], map t | t in s.types :: 0;
    assert FieldsOk(s, rings) && TypesOk(s, rank);
  }

  /** Whatever calls are made, in whatever order and with whatever failures, rings and counts stay exact. */
  lemma {:induction false} RunKeeps(stores: seq<Store>, ops: seq<Op>, i: nat)
    requires Runs(stores, ops) && Initial(stores[0]) && i < |stores|
    ensures Sound(stores[i])
  {
    if i == 0 {
      InitialSound(stores[0]);
    } else {
      RunKeeps(stores, ops, i - 1);
      DoKeeps(stores[i - 1], ops[i - 1]);
    }
  }
}
