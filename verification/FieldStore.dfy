/** The memory behind fields and fieldtypes: which cells are allocated, and what every library call makes of
    them. Addresses are numbers, an address that is not a key is not allocated, and freeing removes the key. */
module FieldStore {
  import opened FormBase

  type Addr = nat

  const NULL: Addr := 0

  /** The members that link_field and dup_field copy. */
  datatype Shape = Shape(rows: int, cols: int, nrow: int, drows: nat, dcols: nat, nbuf: nat)

  datatype FieldCell = FieldCell(link: Addr, buf: Addr, typ: Addr, owned: bool, frow: int, fcol: int, shape: Shape)

  /** A fieldtype: the two operands are set when it is linked; `hasFree` says that it has a freearg. */
  datatype TypeCell = TypeCell(ref: int, linked: bool, left: Addr, right: Addr, hasArgs: bool, hasFree: bool,
                               resident: bool)

  /** `defType` is the type of the default field, which a call on the null field sets. */
  datatype Store = Store(fields: map<Addr, FieldCell>, types: map<Addr, TypeCell>, bufs: map<Addr, string>,
                         defType: Addr)

  /** Characters in one buffer of a field, and in all of them with their terminators. */
  function Cells(sh: Shape): nat { sh.drows * sh.dcols }

  function Total(sh: Shape): nat { (Cells(sh) + 1) * (1 + sh.nbuf) }

  /** The buffers of a new field: each is blank and ends in a terminator. */
  function Prefilled(cells: nat, n: nat): (buf: string) {
    if n == 0 then "" else Prefilled(cells, n - 1) + seq(cells, _ => ' ') + "\0"
  }

  lemma {:induction false} PrefilledLength(cells: nat, n: nat)
    ensures |Prefilled(cells, n)| == (cells + 1) * n
  {
    if n > 0 {
      PrefilledLength(cells, n - 1);
      assert (cells + 1) * n == (cells + 1) * (n - 1) + (cells + 1);
    }
  }

  /** Character j of buffer i is at (cells + 1) * i + j, and buffer i ends in a terminator. */
  lemma {:induction false} PrefilledAt(cells: nat, n: nat, i: nat, j: nat)
    requires i < n && j <= cells
    ensures (cells + 1) * i + j < |Prefilled(cells, n)|
    ensures Prefilled(cells, n)[(cells + 1) * i + j] == if j < cells then ' ' else '\0'
  {
    PrefilledLength(cells, n - 1);
    if i < n - 1 { PrefilledAt(cells, n - 1, i, j); }
  }

  // ----- the types of the calls -----

  /** The arguments of new_field. */
  datatype Geometry = Geometry(rows: int, cols: int, frow: int, fcol: int, nrow: int, nbuf: int)

  predicate Good(g: Geometry) {
    g.rows > 0 && g.cols > 0 && g.frow >= 0 && g.fcol >= 0 && g.nrow >= 0 && g.nbuf >= 0
  }

  function ShapeOf(g: Geometry): Shape
    requires Good(g)
  {
    Shape(ToShort(g.rows), ToShort(g.cols), g.nrow, g.rows + g.nrow, g.cols, g.nbuf)
  }

  /** What a call leaves, the pointer it returns (null if it fails) and its code. */
  datatype Outcome = Outcome(store: Store, ptr: Addr, err: Code)

  /** Making or copying the arguments of type t fails only if it has any. */
  predicate ArgsReady(types: map<Addr, TypeCell>, t: Addr, ok: bool) {
    t !in types || !types[t].hasArgs || ok
  }

  /** One more, or one less, reference to t. */
  function Counted(types: map<Addr, TypeCell>, t: Addr, n: int): map<Addr, TypeCell> {
    if t in types && t != NULL then types[t := types[t].(ref := types[t].ref + n)] else types
  }

  /** Field f taken out: whoever is linked to it is linked to its successor instead. */
  function Bypassed(fields: map<Addr, FieldCell>, f: Addr): map<Addr, FieldCell>
    requires f in fields
  {
    map g | g in fields && g != f ::
      if fields[g].link == f then fields[g].(link := fields[f].link) else fields[g]
  }

  // ----- one call each -----

  /** new_field: `at` and `bufAt` are what the two allocations give, `copied` whether the arguments of the
      default field's type could be copied. */
  function FieldMade(s: Store, g: Geometry, at: Addr, copied: bool, bufAt: Addr): Outcome {
    if !Good(g) then Outcome(s, NULL, E_BAD_ARGUMENT)
    else if at == NULL || !ArgsReady(s.types, s.defType, copied) || bufAt == NULL then Outcome(s, NULL, E_SYSTEM_ERROR)
    else
      var blank := Prefilled(Cells(ShapeOf(g)), 1 + g.nbuf);
      var cell := FieldCell(at, bufAt, s.defType, false, ToShort(g.frow), ToShort(g.fcol), ShapeOf(g));
      Outcome(Store(s.fields[at := cell], Counted(s.types, s.defType, 1), s.bufs[bufAt := blank], s.defType), at, E_OK)
  }

  /** The first n characters of buffer b. */
  function Copied(bufs: map<Addr, string>, b: Addr, n: nat): string {
    if b in bufs && n <= |bufs[b]| then bufs[b][..n] else ""
  }

  /** dup_field: the copied buffer is larger than needed, and `rest` is what the allocator left in it. */
  function FieldCopied(s: Store, f: Addr, frow: int, fcol: int, at: Addr, copied: bool, bufAt: Addr,
                       rest: string): Outcome
    requires f == NULL || f in s.fields
  {
    if f == NULL || frow < 0 || fcol < 0 then Outcome(s, NULL, E_BAD_ARGUMENT)
    else if at == NULL || !ArgsReady(s.types, s.fields[f].typ, copied) || bufAt == NULL then
      Outcome(s, NULL, E_SYSTEM_ERROR)
    else
      var src := s.fields[f];
      var cell := FieldCell(at, bufAt, src.typ, false, ToShort(frow), ToShort(fcol), src.shape);
      var buf := Copied(s.bufs, src.buf, Total(src.shape)) + rest;
      Outcome(Store(s.fields[at := cell], Counted(s.types, src.typ, 1), s.bufs[bufAt := buf], s.defType), at, E_OK)
  }

  /** The fields after `at` is linked in behind f. */
  function Spliced(fields: map<Addr, FieldCell>, f: Addr, at: Addr, cell: FieldCell): map<Addr, FieldCell>
    requires f in fields
  {
    fields[f := fields[f].(link := at)][at := cell.(link := fields[f].link)]
  }

  /** link_field */
  function FieldLinked(s: Store, f: Addr, frow: int, fcol: int, at: Addr, copied: bool): Outcome
    requires f == NULL || f in s.fields
  {
    if f == NULL || frow < 0 || fcol < 0 then Outcome(s, NULL, E_BAD_ARGUMENT)
    else if at == NULL || !ArgsReady(s.types, s.fields[f].typ, copied) then Outcome(s, NULL, E_SYSTEM_ERROR)
    else
      var src := s.fields[f];
      var cell := FieldCell(NULL, src.buf, src.typ, false, ToShort(frow), ToShort(fcol), src.shape);
      Outcome(Store(Spliced(s.fields, f, at, cell), Counted(s.types, src.typ, 1), s.bufs, s.defType), at, E_OK)
  }

  /** free_field */
  function FieldFreed(s: Store, f: Addr): Outcome
    requires f == NULL || f in s.fields
  {
    if f == NULL then Outcome(s, NULL, E_BAD_ARGUMENT)
    else if s.fields[f].owned then Outcome(s, NULL, E_CONNECTED)
    else
      var cell := s.fields[f];
      var bufs := if cell.link == f then s.bufs - {cell.buf} else s.bufs;
      Outcome(Store(Bypassed(s.fields, f), Counted(s.types, cell.typ, -1), bufs, s.defType), NULL, E_OK)
  }

  /** set_field_type: the old type goes in any case; on failure none takes its place. */
  function TypeSet(s: Store, f: Addr, t: Addr, made: bool): Outcome
    requires f == NULL || f in s.fields
    requires t == NULL || t in s.types
  {
    var was := if f == NULL then s.defType else s.fields[f].typ;
    var now := if ArgsReady(s.types, t, made) then t else NULL;
    var types := Counted(Counted(s.types, was, -1), now, 1);
    var err := if ArgsReady(s.types, t, made) then E_OK else E_SYSTEM_ERROR;
    if f == NULL then Outcome(s.(types := types, defType := now), NULL, err)
    else Outcome(s.(types := types, fields := s.fields[f := s.fields[f].(typ := now)]), NULL, err)
  }

  /** new_fieldtype: at least one of the two callbacks must be given. */
  function TypeMade(s: Store, given: bool, at: Addr): Outcome {
    if !given then Outcome(s, NULL, E_BAD_ARGUMENT)
    else if at == NULL then Outcome(s, NULL, E_SYSTEM_ERROR)
    else Outcome(s.(types := s.types[at := TypeCell(0, false, NULL, NULL, false, false, false)]), at, E_OK)
  }

  /** link_fieldtype */
  function TypesLinked(s: Store, t1: Addr, t2: Addr, at: Addr): Outcome
    requires (t1 == NULL || t1 in s.types) && (t2 == NULL || t2 in s.types)
  {
    if t1 == NULL || t2 == NULL then Outcome(s, NULL, E_BAD_ARGUMENT)
    else if at == NULL then Outcome(s, NULL, E_SYSTEM_ERROR)
    else
      var cell := TypeCell(0, true, t1, t2, s.types[t1].hasArgs || s.types[t2].hasArgs, false, false);
      Outcome(s.(types := Counted(Counted(s.types, t1, 1), t2, 1)[at := cell]), at, E_OK)
  }

  /** free_fieldtype */
  function TypeFreed(s: Store, t: Addr): Outcome
    requires t == NULL || t in s.types
  {
    if t == NULL then Outcome(s, NULL, E_BAD_ARGUMENT)
    else if s.types[t].ref != 0 || s.types[t].resident then Outcome(s, NULL, E_CONNECTED)
    else
      var cell := s.types[t];
      var types := if cell.linked then Counted(Counted(s.types, cell.left, -1), cell.right, -1) else s.types;
      Outcome(s.(types := types - {t}), NULL, E_OK)
  }

  // ----- what the store must look like -----

  /** `link` leads through the ring and back to its start. */
  ghost predicate Loop(fields: map<Addr, FieldCell>, ring: seq<Addr>) {
    && ring != [] && (forall i, j | 0 <= i < j < |ring| :: ring[i] != ring[j])
    && (forall f | f in ring :: f in fields)
    && (forall i {:trigger fields[ring[i]]} | 0 <= i < |ring| ::
          fields[ring[i]].link == ring[if i + 1 < |ring| then i + 1 else 0])
  }

  /** The fields fall into rings, one for each buffer. */
  ghost predicate Rings(fields: map<Addr, FieldCell>, rings: map<Addr, seq<Addr>>) {
    && NULL !in fields && NULL !in rings
    && (forall b | b in rings :: Loop(fields, rings[b]) && forall f | f in rings[b] :: fields[f].buf == b)
    && (forall f | f in fields :: fields[f].buf in rings && f in rings[fields[f].buf])
  }

  /** Every field's buffers are allocated and large enough. */
  ghost predicate Buffered(fields: map<Addr, FieldCell>, bufs: map<Addr, string>) {
    forall f | f in fields :: fields[f].buf in bufs && Total(fields[f].shape) <= |bufs[fields[f].buf]|
  }

  function Holders(fields: map<Addr, FieldCell>, t: Addr): set<Addr> {
    set f | f in fields && fields[f].typ == t
  }

  function Lefts(types: map<Addr, TypeCell>, t: Addr): set<Addr> {
    set u | u in types && types[u].linked && types[u].left == t
  }

  function Rights(types: map<Addr, TypeCell>, t: Addr): set<Addr> {
    set u | u in types && types[u].linked && types[u].right == t
  }

  /** References to t: fields, the default field, operands of linked types, and one for a built-in type. */
  function References(s: Store, t: Addr): nat
    requires t in s.types
  {
    |Holders(s.fields, t)| + (if s.defType == t then 1 else 0) + |Lefts(s.types, t)| + |Rights(s.types, t)|
      + if s.types[t].resident then 1 else 0
  }

  ghost predicate RefsExact(s: Store) {
    forall t {:trigger s.types[t].ref} | t in s.types :: s.types[t].ref == References(s, t)
  }

  predicate Typed(types: map<Addr, TypeCell>, t: Addr) { t == NULL || t in types }

  ghost predicate AllTyped(fields: map<Addr, FieldCell>, types: map<Addr, TypeCell>) {
    forall f | f in fields :: Typed(types, fields[f].typ)
  }

  /** No pointer to a type dangles. */
  ghost predicate NoDangling(s: Store) {
    && NULL !in s.types && AllTyped(s.fields, s.types) && Typed(s.types, s.defType)
    && (forall u {:trigger s.types[u].linked} | u in s.types && s.types[u].linked ::
          s.types[u].left in s.types && s.types[u].right in s.types)
  }

  /** Operands are lower than the types built from them, so types do not contain themselves. */
  ghost predicate Ranked(types: map<Addr, TypeCell>, rank: map<Addr, nat>) {
    && (forall t | t in types :: t in rank)
    && (forall u {:trigger types[u].linked} |
          u in types && types[u].linked && types[u].left in rank && types[u].right in rank ::
          rank[types[u].left] < rank[u] && rank[types[u].right] < rank[u])
  }

  ghost predicate FieldsOk(s: Store, rings: map<Addr, seq<Addr>>) {
    Rings(s.fields, rings) && rings.Keys == s.bufs.Keys && Buffered(s.fields, s.bufs)
  }

  ghost predicate TypesOk(s: Store, rank: map<Addr, nat>) {
    NoDangling(s) && RefsExact(s) && Ranked(s.types, rank)
  }

  ghost predicate FieldsSound(s: Store) {
    exists rings: map<Addr, seq<Addr>> :: FieldsOk(s, rings)
  }

  ghost predicate TypesSound(s: Store) {
    exists rank: map<Addr, nat> :: TypesOk(s, rank)
  }

  /** The store is as the library keeps it. */
  ghost predicate Sound(s: Store) {
    FieldsSound(s) && TypesSound(s)
  }
}
