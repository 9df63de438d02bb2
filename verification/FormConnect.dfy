/** Connecting a field array to a form, and taking it apart again. */
module FormConnect {
  import opened FormBase
  import opened FormPages
  import opened FormRings

  ghost function Marks(fields: seq<Field>): (m: seq<bool>)
  {
    seq(|fields|, i requires 0 <= i < |fields| => fields[i].newPage)
  }

  /** The fields of a claimed set belong to the form, the others to whom they did before. */
  ghost predicate Claimed(form: Form, fields: seq<Field>, claimed: set<Field>, was: seq<Form?>)
    requires |was| == |fields|
    reads Members(fields)`form
  {
    forall i | 0 <= i < |fields| :: fields[i].form == if fields[i] in claimed then form else was[i]
  }

  ghost function Owners(fields: seq<Field>): (o: seq<Form?>)
    reads Members(fields)
    ensures |o| == |fields| && forall i | 0 <= i < |fields| :: o[i] == fields[i].form
  {
    seq(|fields|, i requires 0 <= i < |fields| reads Members(fields) => fields[i].form)
  }

  /** The first n fields were free and are all different. */
  ghost predicate FreeAndDistinct(fields: seq<Field>, n: nat, was: seq<Form?>)
    requires n <= |fields| == |was|
  {
    && (forall i | 0 <= i < n :: was[i] == null)
    && (forall i, j | 0 <= i < j < n :: fields[i] != fields[j])
  }

  ghost function Firsts(fields: seq<Field>, n: nat): set<Field>
    requires n <= |fields|
  {
    set i | 0 <= i < n :: fields[i]
  }

  /** The first pass: store the form in each field and count pages, until a field turns out to be
      connected already, to another form or to this one. */
  method ClaimFields(form: Form, fields: seq<Field>) returns (connected: bool, count: nat, pages: nat)
    modifies Members(fields)`form
    ensures count <= |fields| && Claimed(form, fields, Firsts(fields, count), old(Owners(fields)))
    ensures FreeAndDistinct(fields, count, old(Owners(fields)))
    ensures connected ==> count < |fields|
    ensures connected ==> old(Owners(fields))[count] != null || fields[count] in Firsts(fields, count)
    ensures !connected ==> count == |fields| && pages == PageCount(Marks(fields), |fields|)
  {
    connected, count, pages := false, 0, 0;
    ghost var was := Owners(fields);
    while count < |fields|
      invariant 0 <= count <= |fields| && !connected
      invariant Claimed(form, fields, Firsts(fields, count), was)
      invariant FreeAndDistinct(fields, count, was)
      invariant pages == PageCount(Marks(fields), count)
    {
      if fields[count].form != null {
        connected := true;
        return;
      }
      CountStep(fields, count);
      if count == 0 || fields[count].newPage { pages := pages + 1; }
      ClaimOne(form, fields, count, was);
      count := count + 1;
    }
  }

  lemma CountStep(fields: seq<Field>, n: nat)
    requires n < |fields|
    ensures PageCount(Marks(fields), n + 1) ==
            PageCount(Marks(fields), n) + if n == 0 || fields[n].newPage then 1 else 0
  {
  }

  /** A field found unowned is not among those claimed before it. */
  method ClaimOne(form: Form, fields: seq<Field>, n: nat, ghost was: seq<Form?>)
    requires n < |fields| == |was| && Claimed(form, fields, Firsts(fields, n), was) && fields[n].form == null
    requires FreeAndDistinct(fields, n, was)
    modifies Members(fields)`form
    ensures FreeAndDistinct(fields, n + 1, was)
    ensures Claimed(form, fields, Firsts(fields, n + 1), was)
  {
    assert fields[n] !in Firsts(fields, n);
    assert Firsts(fields, n + 1) == Firsts(fields, n) + {fields[n]};
    fields[n].form := form;
  }

  // ----- the second pass -----

  /** The running maximum of a form dimension, as the source keeps it in a short. */
  function Widest(base: int, ends: seq<int>): int {
    if ends == [] then base
    else
      var w := Widest(base, ends[..|ends| - 1]);
      if w < ends[|ends| - 1] then ToShort(ends[|ends| - 1]) else w
  }

  /** From a fresh form, and with extents that fit a short, it is the maximum. */
  lemma {:induction false} WidestIsMax(ends: seq<int>)
    requires forall i | 0 <= i < |ends| :: 0 <= ends[i] <= SHORT_MAX
    ensures forall i | 0 <= i < |ends| :: ends[i] <= Widest(0, ends)
    ensures Widest(0, ends) == 0 || Widest(0, ends) in ends
    ensures 0 <= Widest(0, ends) <= SHORT_MAX
  {
    if ends != [] { WidestIsMax(ends[..|ends| - 1]); }
  }

  ghost function RowEnds(fields: seq<Field>): (e: seq<int>)
  {
    seq(|fields|, i requires 0 <= i < |fields| => fields[i].frow + fields[i].rows)
  }

  ghost function ColEnds(fields: seq<Field>): (e: seq<int>)
  {
    seq(|fields|, i requires 0 <= i < |fields| => fields[i].fcol + fields[i].cols)
  }

  /** The size the first n fields give a form that started at r by c. */
  ghost predicate Sized(form: Form, fields: seq<Field>, n: nat, r: int, c: int)
    requires n <= |fields|
    reads form`rows, form`cols
  {
    form.rows == Widest(r, RowEnds(fields)[..n]) && form.cols == Widest(c, ColEnds(fields)[..n])
  }

  /** The form grows to hold one more field. */
  method Widen(form: Form, fields: seq<Field>, j: nat, ghost r: int, ghost c: int)
    requires j < |fields| && Sized(form, fields, j, r, c)
    modifies form`rows, form`cols
    ensures Sized(form, fields, j + 1, r, c)
  {
    WidestStep(r, RowEnds(fields), j);
    WidestStep(c, ColEnds(fields), j);
    var f := fields[j];
    if form.rows < f.frow + f.rows { form.rows := ToShort(f.frow + f.rows); }
    if form.cols < f.fcol + f.cols { form.cols := ToShort(f.fcol + f.cols); }
  }

  lemma WidestStep(base: int, ends: seq<int>, j: nat)
    requires j < |ends|
    ensures Widest(base, ends[..j + 1]) ==
            if Widest(base, ends[..j]) < ends[j] then ToShort(ends[j]) else Widest(base, ends[..j])
  {
    assert ends[..j + 1][..j] == ends[..j];
  }

  /** The page table after the first j fields: finished pages, then the one in progress. */
  ghost predicate Filled(table: seq<Page>, marks: seq<bool>, pg: int, j: nat)
    requires j <= |marks|
  {
    && 0 <= pg < |table| && (forall k | 0 <= k < pg :: Holds(table[k], marks, k))
    && if j == 0 then pg == 0 else pg == PageOf(marks, j - 1) && InProgress(table[pg], marks, pg, j)
  }

  /** Field j in the page table. */
  method NotePage(page: array<Page>, pg: int, j: nat, newPage: bool, ghost marks: seq<bool>) returns (next: int)
    requires j < |marks| <= SHORT_MAX && newPage == marks[j] && page.Length == PageCount(marks, |marks|)
    requires Filled(page[..], marks, pg, j)
    modifies page
    ensures Filled(page[..], marks, next, j + 1)
  {
    ghost var was := page[..];
    next := pg;
    if j == 0 {
      FilledFirst(was, marks);
      page[pg] := page[pg].(pmin := ToShort(j));
      assert page[..] == was[0 := was[0].(pmin := 0)];
    } else if newPage {
      FilledNext(was, marks, pg, j);
      page[pg] := page[pg].(pmax := ToShort(j - 1));
      next := pg + 1;
      page[next] := page[next].(pmin := ToShort(j));
      assert page[..] == was[pg := was[pg].(pmax := j - 1)][next := was[next].(pmin := j)];
    } else {
      PageGrows(page[pg], marks, pg, j);
    }
  }

  lemma FilledFirst(table: seq<Page>, marks: seq<bool>)
    requires 0 < |marks| && |table| == PageCount(marks, |marks|)
    ensures |table| > 0 && Filled(table[0 := table[0].(pmin := 0)], marks, 0, 1)
  {
    assert PageCount(marks, 1) == PageCount(marks, 0) + 1;
  }

  /** Field j opens the next page, for which the table has room. */
  lemma FilledNext(table: seq<Page>, marks: seq<bool>, pg: int, j: nat)
    requires 0 < j < |marks| && marks[j] && |table| == PageCount(marks, |marks|) && Filled(table, marks, pg, j)
    ensures pg + 1 < |table|
    ensures Filled(table[pg := table[pg].(pmax := j - 1)][pg + 1 := table[pg + 1].(pmin := j)], marks, pg + 1, j + 1)
  {
    PageOfMonotone(marks, j, |marks| - 1);
    PageCloses(table[pg], table[pg].(pmin := j), marks, pg, j);
    PageCloses(table[pg], table[pg + 1].(pmin := j), marks, pg, j);
  }

  method CloseLastPage(page: array<Page>, pg: int, count: nat, ghost marks: seq<bool>)
    requires 0 < count == |marks| <= SHORT_MAX && page.Length == PageCount(marks, |marks|)
      && Filled(page[..], marks, pg, |marks|)
    modifies page
    ensures Paginates(page[..], marks)
  {
    LastPageCloses(page[pg], marks, pg);
    page[pg] := page[pg].(pmax := ToShort(count - 1));
  }

  /** The second pass: page boundaries, and the size of the form. */
  method FillPages(form: Form, fields: seq<Field>)
    requires 0 < |fields| <= SHORT_MAX && form.page != null
    requires form.page.Length == PageCount(Marks(fields), |fields|)
    modifies form`rows, form`cols, form.page
    ensures Paginates(form.page[..], Marks(fields))
    ensures Sized(form, fields, |fields|, old(form.rows), old(form.cols))
  {
    var page, pg := form.page, 0;
    for j := 0 to |fields|
      invariant form.page == page && Filled(page[..], Marks(fields), pg, j)
      invariant Sized(form, fields, j, old(form.rows), old(form.cols))
    {
      pg := NotePage(page, pg, j, fields[j].newPage, Marks(fields));
      Widen(form, fields, j, old(form.rows), old(form.cols));
    }
    CloseLastPage(page, pg, |fields|, Marks(fields));
  }

  // ----- the third pass -----

  ghost function PageFields(fields: seq<Field>, p: Page): seq<Field> {
    if 0 <= p.pmin <= p.pmax < |fields| then fields[p.pmin..p.pmax + 1] else []
  }

  /** Page k is done: its fields are numbered and threaded in screen order, and the page knows the
      first and the last of them. */
  ghost predicate PageSorted(fields: seq<Field>, p: Page, k: int, ring: seq<Field>)
    reads Members(ring)`snext, Members(ring)`sprev, Members(ring)`index
    reads Members(PageFields(fields, p))`index, Members(PageFields(fields, p))`page
  {
    && SortedRing(PageFields(fields, p), ring) && ring != []
    && Numbered(PageFields(fields, p), p.pmin, k)
    && p.smin == ring[0].index && p.smax == ring[|ring| - 1].index
  }

  lemma PagesApart(fields: seq<Field>, pages: seq<Page>, i: nat, k: nat)
    requires Distinct(fields) && Paginates(pages, Marks(fields)) && i < k < |pages|
    ensures Members(PageFields(fields, pages[i])) !! Members(PageFields(fields, pages[k]))
  {
    var p, q := pages[i], pages[k];
    assert Holds(p, Marks(fields), i) && Holds(q, Marks(fields), k);
    assert InPage(p, p.pmax) && InPage(q, q.pmin);
    if q.pmin <= p.pmax { PageOfMonotone(Marks(fields), q.pmin, p.pmax); }
  }

  ghost predicate SameBounds(p: seq<Page>, q: seq<Page>) {
    |p| == |q| && forall i | 0 <= i < |p| :: p[i].pmin == q[i].pmin && p[i].pmax == q[i].pmax
  }

  lemma SameBoundsTransitive(p: seq<Page>, q: seq<Page>, r: seq<Page>)
    requires SameBounds(p, q) && SameBounds(q, r)
    ensures SameBounds(p, r)
  {
  }

  lemma SameBoundsPaginate(p: seq<Page>, q: seq<Page>, marks: seq<bool>)
    requires Paginates(p, marks) && SameBounds(p, q)
    ensures Paginates(q, marks)
  {
    forall k | 0 <= k < |q| ensures Holds(q[k], marks, k) {
      assert Holds(p[k], marks, k);
      forall j: nat | j < |marks| ensures InPage(q[k], j) <==> PageOf(marks, j) == k {
        assert InPage(p[k], j) <==> InPage(q[k], j);
      }
    }
  }

  /** The third pass over one page, given that its fields are in no earlier page. */
  method SortPageAt(page: array<Page>, fields: seq<Field>, k: nat) returns (ghost ring: seq<Field>)
    requires Distinct(fields) && |fields| <= SHORT_MAX && k < page.Length && k <= SHORT_MAX
    requires 0 <= page[k].pmin <= page[k].pmax < |fields|
    modifies page, Members(PageFields(fields, page[k]))`index, Members(PageFields(fields, page[k]))`page
    modifies Members(PageFields(fields, page[k]))`snext, Members(PageFields(fields, page[k]))`sprev
    ensures PageSorted(fields, page[k], k, ring)
    ensures page[..] == old(page[..])[k := page[k]]
    ensures page[k].pmin == old(page[k].pmin) && page[k].pmax == old(page[k].pmax)
    ensures Members(ring) == Members(PageFields(fields, page[k]))
  {
    var on := fields[page[k].pmin..page[k].pmax + 1];
    var fld: Field?;
    fld, ring := SortPage(on, page[k].pmin, k);
    LastIsBeforeFirst(ring);
    NoteEnds(page, k, fld.index, fld.sprev.index);
    SortedAt(fields, page[k], k, on, ring);
  }

  method NoteEnds(page: array<Page>, k: nat, smin: int, smax: int)
    requires k < page.Length
    modifies page
    ensures page[..] == old(page[..])[k := page[k]] && page[k] == old(page[k]).(smin := smin, smax := smax)
  {
    page[k] := page[k].(smin := smin, smax := smax);
  }

  lemma LastIsBeforeFirst(ring: seq<Field>)
    requires Ring(ring) && ring != []
    ensures ring[0].sprev == ring[|ring| - 1]
  {
  }

  lemma SortedAt(fields: seq<Field>, p: Page, k: int, on: seq<Field>, ring: seq<Field>)
    requires on == PageFields(fields, p) && SortedRing(on, ring) && ring != [] && Numbered(on, p.pmin, k)
    requires p.smin == ring[0].index && p.smax == ring[|ring| - 1].index
    ensures PageSorted(fields, p, k, ring) && Members(ring) == Members(PageFields(fields, p))
  {
  }

  lemma EarlierPagesApart(fields: seq<Field>, start: seq<Page>, pages: seq<Page>, k: nat)
    requires Distinct(fields) && Paginates(start, Marks(fields)) && SameBounds(start, pages) && k < |pages|
    ensures 0 <= pages[k].pmin <= pages[k].pmax < |fields|
    ensures Members(PageFields(fields, pages[k])) <= Members(fields)
    ensures forall i | 0 <= i < k :: Members(PageFields(fields, pages[i])) !! Members(PageFields(fields, pages[k]))
  {
    assert Holds(start[k], Marks(fields), k);
    assert PageFields(fields, pages[k]) == PageFields(fields, start[k]);
    forall i | 0 <= i < k ensures Members(PageFields(fields, pages[i])) !! Members(PageFields(fields, pages[k])) {
      assert PageFields(fields, pages[i]) == PageFields(fields, start[i]);
      PagesApart(fields, start, i, k);
    }
  }

  /** Page i is sorted, on a ring of its own fields. */
  ghost predicate Done(fields: seq<Field>, p: Page, i: int, ring: seq<Field>)
    reads Members(ring)`snext, Members(ring)`sprev, Members(ring)`index
    reads Members(PageFields(fields, p))`index, Members(PageFields(fields, p))`page
  {
    PageSorted(fields, p, i, ring) && Members(ring) == Members(PageFields(fields, p))
  }

  /** Sorting page k leaves the pages before it sorted, since they share no field. */
  method SortNextPage(page: array<Page>, fields: seq<Field>, k: nat, ghost rings: seq<seq<Field>>)
    returns (ghost after: seq<seq<Field>>)
    requires Distinct(fields) && |fields| <= SHORT_MAX && k < page.Length && k <= SHORT_MAX && |rings| == k
    requires 0 <= page[k].pmin <= page[k].pmax < |fields|
    requires forall i | 0 <= i < k :: Members(PageFields(fields, page[i])) !! Members(PageFields(fields, page[k]))
    requires forall i | 0 <= i < k :: Done(fields, page[i], i, rings[i])
    modifies page, Members(PageFields(fields, page[k]))`index, Members(PageFields(fields, page[k]))`page
    modifies Members(PageFields(fields, page[k]))`snext, Members(PageFields(fields, page[k]))`sprev
    ensures |after| == k + 1 && forall i | 0 <= i <= k :: Done(fields, page[i], i, after[i])
    ensures SameBounds(old(page[..]), page[..])
  {
    ghost var touched := Members(PageFields(fields, page[k]));
    forall i | 0 <= i < k ensures Members(rings[i]) !! touched {
      assert Members(rings[i]) == Members(PageFields(fields, page[i]));
    }
    ghost var ring := SortPageAt(page, fields, k);
    after := rings + [ring];
    forall i | 0 <= i < k ensures Done(fields, page[i], i, rings[i]) {
      assert page[i] == old(page[i]) && Members(rings[i]) !! touched;
      assert Done(fields, old(page[i]), i, rings[i]);
    }
  }

  /** The third pass: every page into a ring. */
  method SortPages(page: array<Page>, fields: seq<Field>) returns (ghost rings: seq<seq<Field>>)
    requires Distinct(fields) && |fields| <= SHORT_MAX && Paginates(page[..], Marks(fields))
    modifies page, Members(fields)`index, Members(fields)`page, Members(fields)`snext, Members(fields)`sprev
    ensures Paginates(page[..], Marks(fields)) && SameBounds(old(page[..]), page[..])
    ensures |rings| == page.Length
    ensures forall i | 0 <= i < page.Length :: Done(fields, page[i], i, rings[i])
  {
    rings := [];
    ghost var start := page[..];
    for k := 0 to page.Length
      invariant |rings| == k && SameBounds(start, page[..])
      invariant forall i | 0 <= i < k :: Done(fields, page[i], i, rings[i])
    {
      ghost var before := page[..];
      EarlierPagesApart(fields, start, before, k);
      rings := SortNextPage(page, fields, k, rings);
      SameBoundsTransitive(start, before, page[..]);
    }
    SameBoundsPaginate(start, page[..], Marks(fields));
  }
}
