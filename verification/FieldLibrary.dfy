/** The calls on fields and fieldtypes as the library makes them, one assignment at a time. Every read of a cell
    is of an allocated one, and nothing is freed twice: a key must be present to be read or removed. */
module FieldLibrary {
  import opened FormBase
  import opened FieldStore
  import opened FieldRings
  import opened FieldRuns
  import opened FieldTheorems

  class Library {
    var fields: map<Addr, FieldCell>
    var types: map<Addr, TypeCell>
    var bufs: map<Addr, string>
    var defType: Addr

    ghost function Snapshot(): Store
      reads this
    {
      Store(fields, types, bufs, defType)
    }

    // ----- types of fields -----

    method Retain(t: Addr, n: int)
      requires t in types
      modifies `types
      ensures types == old(types)[t := old(types[t]).(ref := old(types[t].ref) + n)]
    {
      types := types[t := types[t].(ref := types[t].ref + n)];
    }

    /** _nc_Copy_Type: give the field the type t, or none if its arguments cannot be copied. */
    method CopyType(dst: Addr, t: Addr, copied: bool) returns (ok: bool)
      requires dst in fields && Typed(types, t) && NULL !in types
      modifies `fields, `types
      ensures ok == ArgsReady(types, t, copied) == ArgsReady(old(types), t, copied)
      ensures fields == old(fields)[dst := old(fields[dst]).(typ := if ok then t else NULL)]
      ensures types == if ok then Counted(old(types), t, 1) else old(types)
    {
      fields := fields[dst := fields[dst].(typ := t)];
      var err := if t == NULL || !types[t].hasArgs || copied then 0 else 1;
      if err != 0 {
        fields := fields[dst := fields[dst].(typ := NULL)];
        ok := false;
      } else {
        if fields[dst].typ != NULL { Retain(fields[dst].typ, 1); }
        ok := true;
      }
    }

    /** _nc_Free_Type */
    method FreeType(f: Addr)
      requires f in fields && Typed(types, fields[f].typ) && NULL !in types
      modifies `types
      ensures types == Counted(old(types), fields[f].typ, -1)
    {
      if fields[f].typ != NULL { Retain(fields[f].typ, -1); }
    }

    // ----- buffers -----

    /** One buffer: blanks, then the terminator. */
    method FillBuffer(b: Addr, start: nat, cells: nat)
      requires b in bufs && start + cells < |bufs[b]|
      modifies `bufs
      ensures bufs.Keys == old(bufs).Keys && bufs == old(bufs)[b := bufs[b]]
      ensures bufs[b] == old(bufs[b])[..start] + seq(cells, _ => ' ') + "\0" + old(bufs[b])[start + cells + 1..]
    {
      ghost var was := bufs[b];
      for j := 0 to cells
        invariant b in bufs && bufs == old(bufs)[b := bufs[b]]
        invariant bufs[b] == was[..start] + seq(j, _ => ' ') + was[start + j..]
      {
        bufs := bufs[b := bufs[b][start + j := ' ']];
      }
      bufs := bufs[b := bufs[b][start + cells := '\0']];
    }

    /** The prefilling loop of new_field. */
    method Prefill(b: Addr, cells: nat, nbuf: nat)
      requires b in bufs && |bufs[b]| == (cells + 1) * (1 + nbuf)
      modifies `bufs
      ensures bufs == old(bufs)[b := Prefilled(cells, 1 + nbuf)]
    {
      for i := 0 to nbuf + 1
        invariant b in bufs && |bufs[b]| == (cells + 1) * (1 + nbuf) && bufs == old(bufs)[b := bufs[b]]
        invariant |Prefilled(cells, i)| == (cells + 1) * i <= |bufs[b]|
        invariant bufs[b][..(cells + 1) * i] == Prefilled(cells, i)
      {
        ghost var start := (cells + 1) * i;
        PrefilledLength(cells, i + 1);
        Fits(cells, i, nbuf);
        FillBuffer(b, (cells + 1) * i, cells);
        assert bufs[b][..start + cells + 1] == Prefilled(cells, i) + seq(cells, _ => ' ') + "\0";
      }
      assert bufs[b][..(cells + 1) * (nbuf + 1)] == bufs[b];
    }

    // ----- fields -----

    /** The rest of free_field, on a field whose ring is known; its buffer may be missing. */
    method Release(f: Addr, ghost ring: seq<Addr>)
      requires f in fields && f != NULL && Loop(fields, ring) && f in ring
      requires forall g | g in fields && fields[g].link == f :: g in ring
      requires Typed(types, fields[f].typ) && NULL !in types
      requires fields[f].link == f && fields[f].buf != NULL ==> fields[f].buf in bufs
      modifies this
      ensures fields == Bypassed(old(fields), f) && types == Counted(old(types), old(fields[f].typ), -1)
      ensures bufs == if old(fields[f].link) == f && old(fields[f].buf) != NULL
                      then old(bufs) - {old(fields[f].buf)} else old(bufs)
      ensures defType == old(defType)
    {
      ghost var was := fields;
      if fields[f].link == f {
        if fields[f].buf != NULL { bufs := bufs - {fields[f].buf}; }
        OnlyOne(was, ring, f, f);
      } else {
        var g := Predecessor(f, ring);
        OnlyOne(was, ring, f, g);
        fields := fields[g := fields[g].(link := fields[f].link)];
      }
      FreeType(f);
      fields := fields - {f};
      assert fields == Bypassed(was, f);
    }

    /** Round the ring to the field that is linked to f. */
    method Predecessor(f: Addr, ghost ring: seq<Addr>) returns (g: Addr)
      requires Loop(fields, ring) && f in ring
      ensures g in fields && fields[g].link == f
    {
      ghost var k :| 0 <= k < |ring| && ring[k] == f;
      ghost var i := k;
      g := f;
      while fields[g].link != f
        invariant 0 <= i < |ring| && ring[i] == g && g in fields
        decreases if i < k then k - i else |ring| - i + k
      {
        assert fields[ring[i]].link == ring[if i + 1 < |ring| then i + 1 else 0];
        g := fields[g].link;
        i := Next(|ring|, i);
        assert ring[i] in ring;
      }
    }

    /** free_field */
    method FreeField(f: Addr) returns (err: Code)
      requires Sound(Snapshot()) && (f == NULL || f in fields)
      modifies this
      ensures Outcome(Snapshot(), NULL, err) == FieldFreed(old(Snapshot()), f)
    {
      if f == NULL { return E_BAD_ARGUMENT; }
      if fields[f].owned { return E_CONNECTED; }
      ghost var ring := RingOf(Snapshot(), f);
      Release(f, ring);
      err := E_OK;
    }

    /** A fresh copy of the default field, given its place and shape. */
    method CopyDefault(at: Addr, link: Addr, frow: int, fcol: int, shape: Shape)
      requires at != NULL && at !in fields
      modifies `fields
      ensures fields == old(fields)[at := FieldCell(link, NULL, defType, false, ToShort(frow), ToShort(fcol), shape)]
    {
      fields := fields[at := FieldCell(NULL, NULL, defType, false, 0, 0, Shape(0, 0, 0, 0, 0, 0))];
      fields := fields[at := fields[at].(frow := ToShort(frow), fcol := ToShort(fcol))];
      fields := fields[at := fields[at].(link := link)];
      fields := fields[at := fields[at].(shape := shape)];
    }

    /** The buffer of a new field: allocated with what is in `raw`, then prefilled. */
    method GiveBuffer(at: Addr, shape: Shape, bufAt: Addr, raw: string)
      requires at in fields && bufAt !in bufs && |raw| == Total(shape)
      modifies `fields, `bufs
      ensures fields == old(fields)[at := old(fields[at]).(buf := bufAt)]
      ensures bufs == old(bufs)[bufAt := Prefilled(Cells(shape), 1 + shape.nbuf)]
    {
      bufs := bufs[bufAt := raw];
      fields := fields[at := fields[at].(buf := bufAt)];
      Prefill(bufAt, Cells(shape), shape.nbuf);
    }

    /** new_field; `raw` is what the allocator left in the buffer. */
    method NewField(g: Geometry, at: Addr, copied: bool, bufAt: Addr, raw: string) returns (res: Addr, err: Code)
      requires Sound(Snapshot()) && at !in fields && bufAt !in bufs
      requires Good(g) && bufAt != NULL ==> |raw| == Total(ShapeOf(g))
      modifies this
      ensures Outcome(Snapshot(), res, err) == FieldMade(old(Snapshot()), g, at, copied, bufAt)
    {
      if !Good(g) { return NULL, E_BAD_ARGUMENT; }
      if at == NULL { return NULL, E_SYSTEM_ERROR; }
      NoNull(Snapshot());
      LinksLive(Snapshot(), at);
      res, err := BuildField(g, at, copied, bufAt, raw);
    }

    /** new_field, once the cell is allocated. */
    method BuildField(g: Geometry, at: Addr, copied: bool, bufAt: Addr, raw: string) returns (res: Addr, err: Code)
      requires Good(g) && at != NULL && Unlinked(fields, at) && bufAt !in bufs && NULL !in types
        && Typed(types, defType)
      requires bufAt != NULL ==> |raw| == Total(ShapeOf(g))
      modifies this
      ensures Outcome(Snapshot(), res, err) == FieldMade(old(Snapshot()), g, at, copied, bufAt)
    {
      ghost var was := Snapshot();
      CopyDefault(at, at, g.frow, g.fcol, ShapeOf(g));
      var ok := CopyType(at, defType, copied);
      if ok && bufAt != NULL {
        GiveBuffer(at, ShapeOf(g), bufAt, raw);
        return at, E_OK;
      }
      Abandon(at, was);
      res, err := NULL, E_SYSTEM_ERROR;
    }

    /** free_field on a field that failed to get its type or its buffer: everything is as before. */
    method Abandon(at: Addr, ghost was: Store)
      requires at != NULL && Unlinked(was.fields, at) && at in fields && NULL !in was.types
      requires fields[at].link == at && fields[at].buf == NULL && Typed(was.types, fields[at].typ)
      requires fields == was.fields[at := fields[at]] && types == Counted(was.types, fields[at].typ, 1)
      requires bufs == was.bufs && defType == was.defType
      modifies this
      ensures Snapshot() == was
    {
      ghost var cell := fields[at];
      Release(at, [at]);
      AddedBack(was.fields, at, cell);
      CountedBack(was.types, cell.typ);
    }

    /** dup_field; the buffer is allocated twenty times as large as needed, with `raw` in it. */
    method DupField(f: Addr, frow: int, fcol: int, at: Addr, copied: bool, bufAt: Addr, raw: string)
      returns (res: Addr, err: Code)
      requires Sound(Snapshot()) && (f == NULL || f in fields) && at !in fields && bufAt !in bufs
      requires f != NULL && bufAt != NULL ==> |raw| == 20 * Total(fields[f].shape)
      modifies this
      ensures Outcome(Snapshot(), res, err) ==
              FieldCopied(old(Snapshot()), f, frow, fcol, at, copied, bufAt,
                          if f == NULL || bufAt == NULL then "" else raw[Total(old(fields[f].shape))..])
    {
      if f == NULL || frow < 0 || fcol < 0 { return NULL, E_BAD_ARGUMENT; }
      if at == NULL { return NULL, E_SYSTEM_ERROR; }
      NoNull(Snapshot());
      LinksLive(Snapshot(), at);
      BufferCopied(Snapshot(), f);
      FieldTyped(Snapshot(), f);
      res, err := BuildCopy(f, frow, fcol, at, copied, bufAt, raw);
    }

    /** dup_field, once the cell is allocated. */
    method BuildCopy(f: Addr, frow: nat, fcol: nat, at: Addr, copied: bool, bufAt: Addr, raw: string)
      returns (res: Addr, err: Code)
      requires f in fields && f != NULL && at != NULL && Unlinked(fields, at) && bufAt !in bufs
      requires NULL !in types && Typed(types, fields[f].typ)
      requires fields[f].buf in bufs && Total(fields[f].shape) <= |bufs[fields[f].buf]|
      requires bufAt != NULL ==> |raw| == 20 * Total(fields[f].shape)
      modifies this
      ensures Outcome(Snapshot(), res, err) ==
              FieldCopied(old(Snapshot()), f, frow, fcol, at, copied, bufAt,
                          if bufAt == NULL then "" else raw[Total(old(fields[f].shape))..])
    {
      ghost var was := Snapshot();
      CopyDefault(at, at, frow, fcol, fields[f].shape);
      var ok := CopyType(at, fields[f].typ, copied);
      if ok && bufAt != NULL {
        var len := Total(fields[at].shape);
        bufs := bufs[bufAt := raw];
        fields := fields[at := fields[at].(buf := bufAt)];
        bufs := bufs[bufAt := bufs[fields[f].buf][..len] + bufs[bufAt][len..]];
        return at, E_OK;
      }
      Abandon(at, was);
      res, err := NULL, E_SYSTEM_ERROR;
    }

    /** link_field */
    method LinkField(f: Addr, frow: int, fcol: int, at: Addr, copied: bool) returns (res: Addr, err: Code)
      requires Sound(Snapshot()) && (f == NULL || f in fields) && at !in fields
      modifies this
      ensures Outcome(Snapshot(), res, err) == FieldLinked(old(Snapshot()), f, frow, fcol, at, copied)
    {
      if f == NULL || frow < 0 || fcol < 0 { return NULL, E_BAD_ARGUMENT; }
      if at == NULL { return NULL, E_SYSTEM_ERROR; }
      NoNull(Snapshot());
      LinksLive(Snapshot(), at);
      FieldTyped(Snapshot(), f);
      ghost var ring := WholeRing(Snapshot(), f);
      res, err := BuildLink(f, frow, fcol, at, copied, ring);
    }

    /** The new cell of link_field, on the ring and sharing the buffer. */
    method SpliceCell(f: Addr, at: Addr, frow: nat, fcol: nat)
      requires f in fields && at != NULL && at !in fields
      modifies `fields
      ensures fields == Spliced(old(fields), f, at,
        FieldCell(NULL, old(fields[f]).buf, defType, false, ToShort(frow), ToShort(fcol), old(fields[f]).shape))
    {
      CopyDefault(at, fields[f].link, frow, fcol, fields[f].shape);
      fields := fields[f := fields[f].(link := at)];
      fields := fields[at := fields[at].(buf := fields[f].buf)];
    }

    /** link_field, once the cell is allocated. */
    method BuildLink(f: Addr, frow: nat, fcol: nat, at: Addr, copied: bool, ghost ring: seq<Addr>)
      returns (res: Addr, err: Code)
      requires f in fields && f != NULL && at != NULL && Unlinked(fields, at)
      requires NULL !in types && Typed(types, fields[f].typ) && Loop(fields, ring) && f in ring
      modifies this
      ensures Outcome(Snapshot(), res, err) == FieldLinked(old(Snapshot()), f, frow, fcol, at, copied)
    {
      ghost var was := Snapshot();
      SpliceCell(f, at, frow, fcol);
      var ok := CopyType(at, fields[f].typ, copied);
      if ok { return at, E_OK; }
      ghost var cell := fields[at];
      assert fields == Spliced(was.fields, f, at, cell);
      AbandonLink(f, at, ring, was, cell);
      res, err := NULL, E_SYSTEM_ERROR;
    }

    /** free_field on a linked field that failed to get its type: the ring is as before. */
    method AbandonLink(f: Addr, at: Addr, ghost ring: seq<Addr>, ghost was: Store, ghost cell: FieldCell)
      requires f in was.fields && at != NULL && Unlinked(was.fields, at) && at in fields && NULL !in types
      requires Loop(was.fields, ring) && f in ring && cell.typ == NULL
      requires fields == Spliced(was.fields, f, at, cell) && types == was.types && bufs == was.bufs
        && defType == was.defType
      modifies this
      ensures Snapshot() == was
    {
      ghost var k :| 0 <= k < |ring| && ring[k] == f;
      SplicedLoop(was.fields, ring, k, at, cell);
      GrownMembers(ring, k, at, at);
      GrownMembers(ring, k, at, f);
      LinkIsLive(was.fields, ring, k);
      Release(at, Grown(ring, k, at));
      SplicedBack(was.fields, f, at, cell);
    }

    /** set_field_type; the null field stands for the default field. */
    method SetFieldType(f: Addr, t: Addr, made: bool) returns (err: Code)
      requires Sound(Snapshot()) && (f == NULL || f in fields) && (t == NULL || t in types)
      modifies this
      ensures Outcome(Snapshot(), NULL, err) == TypeSet(old(Snapshot()), f, t, made)
    {
      NoNull(Snapshot());
      if f == NULL {
        err := SetDefaultType(t, made);
      } else {
        FieldTyped(Snapshot(), f);
        err := SetTypeOf(f, t, made);
      }
    }

    method SetDefaultType(t: Addr, made: bool) returns (err: Code)
      requires NULL !in types && Typed(types, defType) && Typed(types, t)
      modifies `types, `defType
      ensures Outcome(Snapshot(), NULL, err) == TypeSet(old(Snapshot()), NULL, t, made)
    {
      if defType != NULL { Retain(defType, -1); }
      defType := t;
      if t != NULL && types[t].hasArgs && !made {
        defType := NULL;
        return E_SYSTEM_ERROR;
      }
      if t != NULL { Retain(t, 1); }
      err := E_OK;
    }

    method SetTypeOf(f: Addr, t: Addr, made: bool) returns (err: Code)
      requires f in fields && f != NULL && NULL !in types && Typed(types, fields[f].typ) && Typed(types, t)
      modifies `types, `fields
      ensures Outcome(Snapshot(), NULL, err) == TypeSet(old(Snapshot()), f, t, made)
    {
      FreeType(f);
      fields := fields[f := fields[f].(typ := t)];
      if t != NULL && types[t].hasArgs && !made {
        fields := fields[f := fields[f].(typ := NULL)];
        return E_SYSTEM_ERROR;
      }
      if t != NULL { Retain(t, 1); }
      err := E_OK;
    }

    /** new_fieldtype */
    method NewFieldtype(given: bool, at: Addr) returns (res: Addr, err: Code)
      requires at !in types
      modifies `types
      ensures Outcome(Snapshot(), res, err) == TypeMade(old(Snapshot()), given, at)
    {
      if !given { return NULL, E_BAD_ARGUMENT; }
      if at == NULL { return NULL, E_SYSTEM_ERROR; }
      types := types[at := TypeCell(0, false, NULL, NULL, false, false, false)];
      res, err := at, E_OK;
    }

    /** link_fieldtype */
    method LinkFieldtype(t1: Addr, t2: Addr, at: Addr) returns (res: Addr, err: Code)
      requires NULL !in types && (t1 == NULL || t1 in types) && (t2 == NULL || t2 in types) && at !in types
      modifies `types
      ensures Outcome(Snapshot(), res, err) == TypesLinked(old(Snapshot()), t1, t2, at)
    {
      if t1 == NULL || t2 == NULL { return NULL, E_BAD_ARGUMENT; }
      if at == NULL { return NULL, E_SYSTEM_ERROR; }
      ghost var was := types;
      StartLinked(t1, t2, at);
      ghost var cell := types[at];
      Retain(t1, 1);
      CountedBeside(was, at, cell, t1, 1);
      Retain(t2, 1);
      CountedBeside(Counted(was, t1, 1), at, cell, t2, 1);
      res, err := at, E_OK;
    }

    method StartLinked(t1: Addr, t2: Addr, at: Addr)
      requires t1 in types && t2 in types && at !in types
      modifies `types
      ensures types == old(types)[at :=
        TypeCell(0, true, t1, t2, old(types)[t1].hasArgs || old(types)[t2].hasArgs, false, false)]
    {
      types := types[at := TypeCell(0, false, NULL, NULL, false, false, false)];
      types := types[at := types[at].(linked := true)];
      if types[t1].hasArgs || types[t2].hasArgs { types := types[at := types[at].(hasArgs := true)]; }
      types := types[at := types[at].(left := t1, right := t2)];
    }

    /** free_fieldtype */
    method FreeFieldtype(t: Addr) returns (err: Code)
      requires NoDangling(Snapshot()) && (t == NULL || t in types)
      modifies `types
      ensures Outcome(Snapshot(), NULL, err) == TypeFreed(old(Snapshot()), t)
    {
      if t == NULL { return E_BAD_ARGUMENT; }
      if types[t].ref != 0 { return E_CONNECTED; }
      if types[t].resident { return E_CONNECTED; }
      if types[t].linked {
        var left, right := types[t].left, types[t].right;
        assert types[t].linked;
        if left != NULL { Retain(left, -1); }
        if right != NULL { Retain(right, -1); }
      }
      types := types - {t};
      err := E_OK;
    }
  }

  lemma LinkIsLive(fields: map<Addr, FieldCell>, ring: seq<Addr>, k: nat)
    requires Loop(fields, ring) && k < |ring|
    ensures ring[k] in fields && fields[ring[k]].link in fields
  {
    assert ring[k] in ring;
    assert fields[ring[k]].link == ring[Next(|ring|, k)];
    assert ring[Next(|ring|, k)] in ring;
  }

  lemma Fits(cells: nat, i: nat, nbuf: nat)
    requires i <= nbuf
    ensures (cells + 1) * i + cells < (cells + 1) * (1 + nbuf)
  {
    assert (cells + 1) * (i + 1) <= (cells + 1) * (1 + nbuf);
  }

  /** A free address that nobody is linked to. */
  ghost predicate Unlinked(fields: map<Addr, FieldCell>, at: Addr) {
    at !in fields && forall g | g in fields :: fields[g].link != at
  }

  lemma NoNull(s: Store)
    requires Sound(s)
    ensures NULL !in s.types && NULL !in s.fields && NULL !in s.bufs && Typed(s.types, s.defType)
    ensures AllTyped(s.fields, s.types)
  {
    var rings :| FieldsOk(s, rings);
    var rank :| TypesOk(s, rank);
  }

  /** The ring of a field, and what freeing the field needs to know about it. */
  lemma RingOf(s: Store, f: Addr) returns (ring: seq<Addr>)
    requires Sound(s) && f in s.fields
    ensures Loop(s.fields, ring) && f in ring && NULL !in s.types && Typed(s.types, s.fields[f].typ)
    ensures s.fields[f].buf in s.bufs && s.fields[f].buf != NULL
    ensures forall g | g in s.fields && s.fields[g].link == f :: g in ring
  {
    NoNull(s);
    BufferCopied(s, f);
    ring := WholeRing(s, f);
  }

  lemma WholeRing(s: Store, f: Addr) returns (ring: seq<Addr>)
    requires FieldsSound(s) && f in s.fields
    ensures Loop(s.fields, ring) && f in ring
    ensures forall g | g in s.fields && s.fields[g].link == f :: g in ring
  {
    var rings :| FieldsOk(s, rings);
    ring := rings[s.fields[f].buf];
    forall g | g in s.fields && s.fields[g].link == f ensures g in ring {
      var other := rings[s.fields[g].buf];
      var k :| 0 <= k < |other| && other[k] == g;
      assert s.fields[other[k]].link == other[Next(|other|, k)];
      assert f in other;
    }
  }

  /** Only one field of a ring is linked to f. */
  lemma OnlyOne(fields: map<Addr, FieldCell>, ring: seq<Addr>, f: Addr, g: Addr)
    requires Loop(fields, ring) && f in ring && g in fields && fields[g].link == f
    requires forall h | h in fields && fields[h].link == f :: h in ring
    ensures forall h | h in fields && h != g :: fields[h].link != f
  {
    forall h | h in fields && fields[h].link == f ensures h == g {
      var i, k :| 0 <= i < |ring| && ring[i] == g && 0 <= k < |ring| && ring[k] == h;
      assert fields[ring[i]].link == ring[Next(|ring|, i)] && fields[ring[k]].link == ring[Next(|ring|, k)];
    }
  }
}
