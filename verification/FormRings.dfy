/** The sorted rings of a form: circular doubly linked lists threaded through the fields. */
module FormRings {
  import opened FormBase
  import opened FormPages

  class Form {
    var rows: int
    var cols: int
    var maxfield: int
    var maxpage: int
    var curpage: int
    var field: seq<Field>
    var hasFields: bool
    var posted: bool
    var page: array?<Page>

    /** default_form */
    constructor ()
      ensures rows == 0 && cols == 0 && maxfield == -1 && maxpage == -1 && curpage == -1
      ensures field == [] && !hasFields && !posted && page == null
    {
      rows, cols, maxfield, maxpage, curpage := 0, 0, -1, -1, -1;
      field, hasFields, posted, page := [], false, false, null;
    }
  }

  /** Position, size and the new-page mark do not change while a form is being built. */
  class Field {
    const frow: int
    const fcol: int
    const rows: int
    const cols: int
    const newPage: bool
    var index: int
    var page: int
    var snext: Field?
    var sprev: Field?
    var form: Form?
  }

  /** Strictly before, in screen order. */
  predicate Before(a: Field, b: Field)
  {
    a.frow < b.frow || (a.frow == b.frow && a.fcol < b.fcol)
  }

  ghost function Members(s: seq<Field>): set<Field> {
    set f | f in s
  }

  ghost predicate Distinct(s: seq<Field>) {
    forall i, j | 0 <= i < j < |s| :: s[i] != s[j]
  }

  ghost predicate InOrder(s: seq<Field>)
  {
    forall i, j | 0 <= i < j < |s| :: !Before(s[j], s[i])
  }

  /** `snext` runs through s and back to its head, and `sprev` the other way. */
  ghost predicate Ring(s: seq<Field>)
    reads Members(s)`snext, Members(s)`sprev
  {
    && Distinct(s)
    && (forall i {:trigger s[i].snext} | 0 <= i < |s| :: s[i].snext == s[if i + 1 < |s| then i + 1 else 0])
    && (forall i {:trigger s[i].sprev} | 0 <= i < |s| :: s[i].sprev == s[if i > 0 then i - 1 else |s| - 1])
  }

  /** The field reached from f by n steps along `snext`. */
  ghost function Walk(f: Field?, n: nat): Field?
    reads *
  {
    if n == 0 || f == null then f else Walk(f.snext, n - 1)
  }

  /** Walking the ring from its head meets each field at its place and returns to the head. */
  lemma {:induction false} WalkRing(s: seq<Field>, i: nat, n: nat)
    requires Ring(s) && i < |s| && i + n <= |s|
    ensures Walk(s[i], n) == s[if i + n < |s| then i + n else 0]
    decreases n
  {
    if n > 0 {
      assert s[i].snext == s[if i + 1 < |s| then i + 1 else 0];
      if i + 1 < |s| { WalkRing(s, i + 1, n - 1); }
    }
  }

  /** f inserted at place k. */
  ghost function Inserted(s: seq<Field>, k: nat, f: Field): seq<Field>
    requires k <= |s|
  {
    s[..k] + [f] + s[k..]
  }

  /** The neighbours of a field inserted at place k of a ring of n. */
  function Pred(n: nat, k: nat): (p: nat)
    requires 0 < n && k <= n
    ensures p < n
  {
    if k > 0 then k - 1 else n - 1
  }

  function Succ(n: nat, k: nat): (c: nat)
    requires 0 < n && k <= n
    ensures c < n
  {
    if k < n then k else 0
  }

  /** The four pointers that a splice sets, in a ring otherwise untouched. */
  lemma Spliced(s: seq<Field>, k: nat, f: Field)
    requires 0 < |s| && k <= |s| && f !in s && Distinct(s)
    requires f.snext == s[Succ(|s|, k)] && f.sprev == s[Pred(|s|, k)]
    requires forall i {:trigger s[i].snext} | 0 <= i < |s| ::
      s[i].snext == if i == Pred(|s|, k) then f else s[if i + 1 < |s| then i + 1 else 0]
    requires forall i {:trigger s[i].sprev} | 0 <= i < |s| ::
      s[i].sprev == if i == Succ(|s|, k) then f else s[if i > 0 then i - 1 else |s| - 1]
    ensures Ring(Inserted(s, k, f))
  {
    var t := Inserted(s, k, f);
    forall i {:trigger t[i].snext} | 0 <= i < |t| ensures t[i].snext == t[if i + 1 < |t| then i + 1 else 0] {
      if i < k { assert t[i] == s[i]; } else if i > k { assert t[i] == s[i - 1]; }
    }
    forall i {:trigger t[i].sprev} | 0 <= i < |t| ensures t[i].sprev == t[if i > 0 then i - 1 else |t| - 1] {
      if i < k { assert t[i] == s[i]; } else if i > k { assert t[i] == s[i - 1]; }
    }
  }

  /** Insert_Field_By_Position, on the ring s headed by `first`. Fields at the same position as the new one
      stay behind it. */
  method InsertFieldByPosition(newfield: Field, first: Field?, ghost s: seq<Field>)
    returns (newhead: Field, ghost k: nat)
    requires Ring(s) && newfield !in s && first == if s == [] then null else s[0]
    modifies newfield`snext, newfield`sprev, Members(s)`snext, Members(s)`sprev
    ensures k <= |s| && Ring(Inserted(s, k, newfield)) && newhead == Inserted(s, k, newfield)[0]
    ensures forall i | 0 <= i < k :: Before(s[i], newfield)
    ensures k < |s| ==> !Before(s[k], newfield)
  {
    var head := first;
    if head == null {
      newfield.snext := newfield;
      newfield.sprev := newfield;
      newhead, k := newfield, 0;
    } else {
      var current := head;
      newhead, k := head, 0;
      while Before(current, newfield)
        invariant 0 <= k < |s| && current == s[k] && head == s[0] == newhead
        invariant forall i | 0 <= i < k :: Before(s[i], newfield)
        decreases |s| - k
      {
        assert s[k].snext == s[if k + 1 < |s| then k + 1 else 0];
        current := current.snext;
        k := k + 1;
        if current == head {
          head := null;
          break;
        }
      }
      assert current == s[Succ(|s|, k)] && current.sprev == s[Pred(|s|, k)];
      Splice(newfield, current, s, k);
      if current == head { newhead := newfield; }
    }
  }

  method Splice(newfield: Field, current: Field, ghost s: seq<Field>, ghost k: nat)
    requires Ring(s) && newfield !in s && 0 < |s| && k <= |s| && current == s[Succ(|s|, k)]
    modifies newfield`snext, newfield`sprev, Members(s)`snext, Members(s)`sprev
    ensures Ring(Inserted(s, k, newfield))
  {
    assert current.sprev == s[Pred(|s|, k)];
    newfield.snext := current;
    newfield.sprev := current.sprev;
    newfield.snext.sprev := newfield;
    newfield.sprev.snext := newfield;
    Spliced(s, k, newfield);
  }

  lemma InsertedInOrder(s: seq<Field>, k: nat, f: Field)
    requires InOrder(s) && k <= |s|
    requires (forall i | 0 <= i < k :: Before(s[i], f)) && (k < |s| ==> !Before(s[k], f))
    ensures InOrder(Inserted(s, k, f))
  {
    var t := Inserted(s, k, f);
    forall i, j | 0 <= i < j < |t| ensures !Before(t[j], t[i]) {
      var a, b := if i < k then i else i - 1, if j < k then j else j - 1;
      if i == k { assert k < |s| && b >= k; }
    }
  }

  // ----- sorting the fields of a page -----

  /** The ring holds the given fields, each once, in screen order. */
  ghost predicate SortedRing(on: seq<Field>, ring: seq<Field>)
    reads Members(ring)`snext, Members(ring)`sprev
  {
    Ring(ring) && InOrder(ring) && |ring| == |on| && Members(ring) == Members(on)
  }

  /** Each field knows its place in the array and its page. */
  ghost predicate Numbered(on: seq<Field>, base: int, nr: int)
    reads Members(on)`index, Members(on)`page
  {
    forall i | 0 <= i < |on| :: on[i].index == base + i && on[i].page == nr
  }

  /** One round of the inner loop: the i-th field of the page into the ring of those before it. */
  method AddToRing(on: seq<Field>, i: nat, head: Field?, ghost ring: seq<Field>)
    returns (newhead: Field, ghost after: seq<Field>)
    requires i < |on| && Distinct(on) && SortedRing(on[..i], ring) && head == if ring == [] then null else ring[0]
    modifies Members(on[..i + 1])`snext, Members(on[..i + 1])`sprev
    ensures SortedRing(on[..i + 1], after) && newhead == after[0]
  {
    var f := on[i];
    assert Members(on[..i + 1]) == Members(on[..i]) + {f};
    assert f !in Members(on[..i]);
    ghost var k;
    newhead, k := InsertFieldByPosition(f, head, ring);
    InsertedInOrder(ring, k, f);
    after := Inserted(ring, k, f);
    assert ring == ring[..k] + ring[k..];
  }

  method Number(f: Field, index: nat, nr: nat)
    requires index <= SHORT_MAX && nr <= SHORT_MAX
    modifies f`index, f`page
    ensures f.index == index && f.page == nr
  {
    f.index := ToShort(index);
    f.page := ToShort(nr);
  }

  /** The inner loop of the last pass: the fields of one page into a ring. `base` is the index in
      the form's array of the first field of the page. */
  method SortPage(on: seq<Field>, base: nat, nr: nat) returns (fld: Field?, ghost ring: seq<Field>)
    requires on != [] && base + |on| - 1 <= SHORT_MAX && Distinct(on) && nr <= SHORT_MAX
    modifies Members(on)`index, Members(on)`page, Members(on)`snext, Members(on)`sprev
    ensures SortedRing(on, ring) && fld == ring[0] && Numbered(on, base, nr)
  {
    fld, ring := null, [];
    for i := 0 to |on|
      invariant SortedRing(on[..i], ring) && fld == if ring == [] then null else ring[0]
      invariant forall k | 0 <= k < i :: on[k].index == base + k && on[k].page == nr
    {
      Number(on[i], base + i, nr);
      fld, ring := AddToRing(on, i, fld, ring);
    }
    assert on[..|on|] == on;
  }
}
