/** What each call on fields and fieldtypes leaves, member by member: the fields asked for, their buffers character by
    character, and everything else as it was. */
module FieldAsked {
  import opened FormBase
  import opened FieldStore
  import opened FieldRefs
  import opened FieldRuns

  /** The position asked for, if it fits the members. */
  ghost predicate At(c: FieldCell, frow: int, fcol: int) {
    (0 <= frow <= 32767 ==> c.frow == frow) && (0 <= fcol <= 32767 ==> c.fcol == fcol)
  }

  /** Types in `up` have one reference more for each time they occur there, types in `down` one less; nothing else of
      them differs. */
  ghost predicate OnlyCounts(was: map<Addr, TypeCell>, now: map<Addr, TypeCell>, down: multiset<Addr>,
                             up: multiset<Addr>) {
    now.Keys == was.Keys && forall t | t in was :: now[t] == was[t].(ref := was[t].ref - down[t] + up[t])
  }

  ghost predicate OthersStay<T>(was: map<Addr, T>, now: map<Addr, T>, but: set<Addr>) {
    now.Keys - but == was.Keys - but && forall a | a in was && a !in but :: a in now && now[a] == was[a]
  }

  lemma CountsOne(types: map<Addr, TypeCell>, t: Addr)
    requires NULL !in types
    ensures OnlyCounts(types, Counted(types, t, 1), multiset{}, multiset{t})
    ensures OnlyCounts(types, Counted(types, t, -1), multiset{t}, multiset{})
  {
    Counts(types, t, 1);
    Counts(types, t, -1);
  }

  lemma CountsAdd(a: map<Addr, TypeCell>, b: map<Addr, TypeCell>, c: map<Addr, TypeCell>, down: multiset<Addr>,
                  up: multiset<Addr>, down1: multiset<Addr>, up1: multiset<Addr>)
    requires OnlyCounts(a, b, down, up) && OnlyCounts(b, c, down1, up1)
    ensures OnlyCounts(a, c, down + down1, up + up1)
  {
    forall t | t in a ensures c[t] == a[t].(ref := a[t].ref - (down + down1)[t] + (up + up1)[t]) {
      assert b[t] == a[t].(ref := a[t].ref - down[t] + up[t]);
    }
  }

  lemma CountsUp(types: map<Addr, TypeCell>, t: Addr, u: Addr)
    requires NULL !in types
    ensures OnlyCounts(types, Counted(Counted(types, t, 1), u, 1), multiset{}, multiset{t, u})
  {
    var one := Counted(types, t, 1);
    CountsOne(types, t);
    CountsOne(one, u);
    CountsAdd(types, one, Counted(one, u, 1), multiset{}, multiset{t}, multiset{}, multiset{u});
    assert multiset{t} + multiset{u} == multiset{t, u};
  }

  lemma CountsDown(types: map<Addr, TypeCell>, t: Addr, u: Addr)
    requires NULL !in types
    ensures OnlyCounts(types, Counted(Counted(types, t, -1), u, -1), multiset{t, u}, multiset{})
  {
    var one := Counted(types, t, -1);
    CountsOne(types, t);
    CountsOne(one, u);
    CountsAdd(types, one, Counted(one, u, -1), multiset{t}, multiset{}, multiset{u}, multiset{});
    assert multiset{t} + multiset{u} == multiset{t, u};
  }

  lemma CountsMove(types: map<Addr, TypeCell>, t: Addr, u: Addr)
    requires NULL !in types
    ensures OnlyCounts(types, Counted(Counted(types, t, -1), u, 1), multiset{t}, multiset{u})
  {
    var one := Counted(types, t, -1);
    CountsOne(types, t);
    CountsOne(one, u);
    CountsAdd(types, one, Counted(one, u, 1), multiset{t}, multiset{}, multiset{}, multiset{u});
  }

  /** new_field: a field of the size and at the place asked for, with blank buffers of its own that each end in a
      terminator, and with the type of the default field. */
  lemma NewAsked(s: Store, g: Geometry, at: Addr, copied: bool, bufAt: Addr)
    requires NULL !in s.types && at !in s.fields && bufAt !in s.bufs
    requires FieldMade(s, g, at, copied, bufAt).err == E_OK
    ensures var o := FieldMade(s, g, at, copied, bufAt);
      && o.ptr == at && at in o.store.fields && o.store.fields[at].buf == bufAt && bufAt in o.store.bufs
      && OthersStay(s.fields, o.store.fields, {at}) && OthersStay(s.bufs, o.store.bufs, {bufAt})
      && OnlyCounts(s.types, o.store.types, multiset{}, multiset{s.defType}) && o.store.defType == s.defType
    ensures var c := FieldMade(s, g, at, copied, bufAt).store.fields[at];
      && c.link == at && !c.owned && c.typ == s.defType && At(c, g.frow, g.fcol)
      && (g.rows <= 32767 ==> c.shape.rows == g.rows) && (g.cols <= 32767 ==> c.shape.cols == g.cols)
      && c.shape.drows == g.rows + g.nrow && c.shape.dcols == g.cols && c.shape.nrow == g.nrow
      && c.shape.nbuf == g.nbuf
    ensures FieldMade(s, g, at, copied, bufAt).store.bufs[bufAt] == Prefilled((g.rows + g.nrow) * g.cols, 1 + g.nbuf)
  {
    CountsOne(s.types, s.defType);
  }

  /** dup_field: a field of the same shape and type at the place asked for, with a buffer of its own. */
  lemma DupAsked(s: Store, f: Addr, frow: int, fcol: int, at: Addr, copied: bool, bufAt: Addr, rest: string)
    requires NULL !in s.types && (f == NULL || f in s.fields) && at !in s.fields && bufAt !in s.bufs
    requires FieldCopied(s, f, frow, fcol, at, copied, bufAt, rest).err == E_OK
    ensures var o := FieldCopied(s, f, frow, fcol, at, copied, bufAt, rest);
      && f in s.fields && o.ptr == at && at in o.store.fields && bufAt in o.store.bufs
      && OthersStay(s.fields, o.store.fields, {at}) && OthersStay(s.bufs, o.store.bufs, {bufAt})
      && OnlyCounts(s.types, o.store.types, multiset{}, multiset{s.fields[f].typ}) && o.store.defType == s.defType
    ensures var src, c := s.fields[f], FieldCopied(s, f, frow, fcol, at, copied, bufAt, rest).store.fields[at];
      c.link == at && c.buf == bufAt && !c.owned && c.typ == src.typ && c.shape == src.shape && At(c, frow, fcol)
  {
    CountsOne(s.types, s.fields[f].typ);
  }

  /** The first n characters of the two buffers are the same. */
  ghost predicate SameText(n: int, a: string, b: string) {
    n <= |a| && n <= |b| && forall k | 0 <= k < n :: a[k] == b[k]
  }

  /** The copy has the source's text, character by character, in all its buffers. */
  lemma TextCopied(s: Store, f: Addr, frow: int, fcol: int, at: Addr, copied: bool, bufAt: Addr, rest: string)
    requires FieldsSound(s) && (f == NULL || f in s.fields) && at !in s.fields && bufAt !in s.bufs
    requires FieldCopied(s, f, frow, fcol, at, copied, bufAt, rest).err == E_OK
    ensures var src, r := s.fields[f], FieldCopied(s, f, frow, fcol, at, copied, bufAt, rest).store;
      && src.buf in s.bufs && bufAt in r.bufs
      && SameText((src.shape.drows * src.shape.dcols + 1) * (1 + src.shape.nbuf), r.bufs[bufAt], s.bufs[src.buf])
  {
    BufferCopied(s, f);
    TextThere(s, f, frow, fcol, at, copied, bufAt, rest);
  }

  lemma TextThere(s: Store, f: Addr, frow: int, fcol: int, at: Addr, copied: bool, bufAt: Addr, rest: string)
    requires (f == NULL || f in s.fields) && FieldCopied(s, f, frow, fcol, at, copied, bufAt, rest).err == E_OK
    requires s.fields[f].buf in s.bufs && Total(s.fields[f].shape) <= |s.bufs[s.fields[f].buf]|
    ensures var src, r := s.fields[f], FieldCopied(s, f, frow, fcol, at, copied, bufAt, rest).store;
      && bufAt in r.bufs
      && SameText((src.shape.drows * src.shape.dcols + 1) * (1 + src.shape.nbuf), r.bufs[bufAt], s.bufs[src.buf])
  {
  }

  /** link_field: a field of the same shape and type at the place asked for, that uses the source's buffer and stands
      behind it on the ring of that buffer. */
  lemma LinkAsked(s: Store, f: Addr, frow: int, fcol: int, at: Addr, copied: bool)
    requires NULL !in s.types && (f == NULL || f in s.fields) && at !in s.fields
    requires FieldLinked(s, f, frow, fcol, at, copied).err == E_OK
    ensures var o := FieldLinked(s, f, frow, fcol, at, copied);
      && f in s.fields && o.ptr == at && at in o.store.fields && f in o.store.fields && o.store.bufs == s.bufs
      && OthersStay(s.fields, o.store.fields, {at, f}) && o.store.fields[f] == s.fields[f].(link := at)
      && OnlyCounts(s.types, o.store.types, multiset{}, multiset{s.fields[f].typ}) && o.store.defType == s.defType
    ensures var src, c := s.fields[f], FieldLinked(s, f, frow, fcol, at, copied).store.fields[at];
      && c.link == src.link && c.buf == src.buf && !c.owned && c.typ == src.typ && c.shape == src.shape
      && At(c, frow, fcol)
  {
    CountsOne(s.types, s.fields[f].typ);
  }

  /** free_field: the field goes, whoever was linked to it is linked to its successor, and its type loses one
      reference. */
  lemma FreeAsked(s: Store, f: Addr)
    requires NULL !in s.types && f in s.fields && FieldFreed(s, f).err == E_OK
    ensures var r := FieldFreed(s, f).store;
      && r.fields.Keys == s.fields.Keys - {f} && r.defType == s.defType
      && (forall g | g in r.fields && s.fields[g].link != f :: r.fields[g] == s.fields[g])
      && (forall g | g in r.fields && s.fields[g].link == f :: r.fields[g] == s.fields[g].(link := s.fields[f].link))
      && OnlyCounts(s.types, r.types, multiset{s.fields[f].typ}, multiset{})
      && OthersStay(s.bufs, r.bufs, {s.fields[f].buf})
  {
    CountsOne(s.types, s.fields[f].typ);
  }

  /** set_field_type: a type whose arguments can be made, or that has none, takes the place of the old one; otherwise
      the field is left with no type. A call on the null field sets the type of the default field. */
  lemma TypeAsked(s: Store, f: Addr, t: Addr, made: bool)
    requires NULL !in s.types && (f == NULL || f in s.fields) && (t == NULL || t in s.types)
    ensures var o := TypeSet(s, f, t, made);
      var was := if f == NULL then s.defType else s.fields[f].typ;
      var now := if t == NULL || !s.types[t].hasArgs || made then t else NULL;
      && (o.err == E_OK <==> now == t) && (o.err != E_OK ==> o.err == E_SYSTEM_ERROR)
      && OnlyCounts(s.types, o.store.types, multiset{was}, multiset{now}) && o.store.bufs == s.bufs
      && (f == NULL ==> o.store.fields == s.fields && o.store.defType == now)
      && (f != NULL ==> OthersStay(s.fields, o.store.fields, {f}) && f in o.store.fields
                        && o.store.fields[f] == s.fields[f].(typ := now) && o.store.defType == s.defType)
  {
    var was := if f == NULL then s.defType else s.fields[f].typ;
    CountsMove(s.types, was, if t == NULL || !s.types[t].hasArgs || made then t else NULL);
  }

  /** new_fieldtype: a type of its own, not referred to and without arguments. */
  lemma NewTypeAsked(s: Store, given: bool, at: Addr)
    requires at !in s.types && TypeMade(s, given, at).err == E_OK
    ensures var o := TypeMade(s, given, at);
      && o.ptr == at && at in o.store.types && OthersStay(s.types, o.store.types, {at})
      && o.store == s.(types := o.store.types) && o.store.types[at] == TypeCell(0, false, 0, 0, false, false, false)
  {
  }

  /** link_fieldtype: a type linked of the two, each of which has one more reference, or two if they are the same. */
  lemma LinkTypesAsked(s: Store, t1: Addr, t2: Addr, at: Addr)
    requires NULL !in s.types && (t1 == NULL || t1 in s.types) && (t2 == NULL || t2 in s.types) && at !in s.types
    requires TypesLinked(s, t1, t2, at).err == E_OK
    ensures var o := TypesLinked(s, t1, t2, at);
      && t1 in s.types && t2 in s.types && o.ptr == at && at in o.store.types
      && o.store == s.(types := o.store.types)
      && OnlyCounts(s.types, o.store.types - {at}, multiset{}, multiset{t1, t2})
      && o.store.types[at] == TypeCell(0, true, t1, t2, s.types[t1].hasArgs || s.types[t2].hasArgs, false, false)
  {
    CountsUp(s.types, t1, t2);
    var counted := Counted(Counted(s.types, t1, 1), t2, 1);
    var now := TypesLinked(s, t1, t2, at).store.types;
    assert now - {at} == counted;
  }

  /** free_fieldtype: the type goes, and each operand of a linked type has one reference less. */
  lemma FreeTypeAsked(s: Store, t: Addr)
    requires NULL !in s.types && t in s.types && TypeFreed(s, t).err == E_OK
    ensures var o, c := TypeFreed(s, t), s.types[t];
      && o.store == s.(types := o.store.types)
      && OnlyCounts(s.types - {t}, o.store.types, Operands(c), multiset{})
  {
    CountsDown(s.types, s.types[t].left, s.types[t].right);
  }

  // ----- when they fail -----

  /** Nothing is wrong with the arguments of the call. */
  predicate WellAsked(op: Op) {
    match op
    case NewField(g, _, _, _) => g.rows > 0 && g.cols > 0 && g.frow >= 0 && g.fcol >= 0 && g.nrow >= 0 && g.nbuf >= 0
    case DupField(f, frow, fcol, _, _, _, _) => f != NULL && frow >= 0 && fcol >= 0
    case LinkField(f, frow, fcol, _, _) => f != NULL && frow >= 0 && fcol >= 0
    case FreeField(f) => f != NULL
    case NewFieldtype(given, _) => given
    case LinkFieldtype(t1, t2, _) => t1 != NULL && t2 != NULL
    case FreeFieldtype(t) => t != NULL
    case _ => true
  }

  /** Memory or an argument is wanting: what the call allocates, or a copy of the arguments of the type copied. */
  predicate Starved(s: Store, op: Op)
    requires Allowed(s, op) && WellAsked(op)
  {
    match op
    case NewField(_, at, copied, bufAt) =>
      at == NULL || bufAt == NULL || (s.defType in s.types && s.types[s.defType].hasArgs && !copied)
    case DupField(f, _, _, at, copied, bufAt, _) =>
      at == NULL || bufAt == NULL
      || (s.fields[f].typ in s.types && s.types[s.fields[f].typ].hasArgs && !copied)
    case LinkField(f, _, _, at, copied) =>
      at == NULL || (s.fields[f].typ in s.types && s.types[s.fields[f].typ].hasArgs && !copied)
    case SetFieldType(_, t, made) => t != NULL && s.types[t].hasArgs && !made
    case NewFieldtype(_, at) => at == NULL
    case LinkFieldtype(_, _, at) => at == NULL
    case _ => false
  }

  /** The field is on a form, or the type is referred to. */
  predicate InUse(s: Store, op: Op)
    requires Allowed(s, op) && WellAsked(op)
  {
    match op
    case FreeField(f) => s.fields[f].owned
    case FreeFieldtype(t) => s.types[t].ref != 0 || s.types[t].resident
    case _ => false
  }

  /** The code of every call; and a call that fails, other than set_field_type, has changed nothing and returns null. */
  lemma WhenTheyFail(s: Store, op: Op)
    requires NULL !in s.types && Allowed(s, op)
    ensures Do(s, op).err ==
      if !WellAsked(op) then E_BAD_ARGUMENT
      else if Starved(s, op) then E_SYSTEM_ERROR
      else if InUse(s, op) then E_CONNECTED
      else E_OK
    ensures Do(s, op).err != E_OK && !op.SetFieldType? ==> Do(s, op).store == s && Do(s, op).ptr == NULL
  {
  }
}
