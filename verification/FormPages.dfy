/** The pages of a form: how the "new page" marks cut the field array into intervals. */
module FormPages {

  /** First and last field of a page in array order, first and last in screen order. */
  datatype Page = Page(pmin: int, pmax: int, smin: int, smax: int)

  /** Field j opens a page. */
  predicate Opens(marks: seq<bool>, j: int)
    requires 0 <= j < |marks|
  {
    j == 0 || marks[j]
  }

  /** The page counter of the first pass after n fields. */
  function PageCount(marks: seq<bool>, n: nat): (c: nat)
    requires n <= |marks|
    ensures c <= n && (n > 0 ==> c > 0)
  {
    if n == 0 then 0 else PageCount(marks, n - 1) + if Opens(marks, n - 1) then 1 else 0
  }

  /** The page of field j. */
  function PageOf(marks: seq<bool>, j: nat): nat
    requires j < |marks|
  {
    PageCount(marks, j + 1) - 1
  }

  lemma {:induction false} PageOfMonotone(marks: seq<bool>, i: nat, j: nat)
    requires i <= j < |marks|
    ensures PageOf(marks, i) <= PageOf(marks, j)
    ensures i < j && Opens(marks, j) ==> PageOf(marks, i) < PageOf(marks, j)
    decreases j
  {
    if i < j { PageOfMonotone(marks, i, j - 1); }
  }

  ghost predicate InPage(p: Page, j: int) { p.pmin <= j <= p.pmax }

  /** Page k holds exactly the fields whose page is k. */
  ghost predicate Holds(p: Page, marks: seq<bool>, k: nat) {
    && 0 <= p.pmin <= p.pmax < |marks| && Opens(marks, p.pmin)
    && (forall j: nat | j < |marks| :: InPage(p, j) <==> PageOf(marks, j) == k)
  }

  /** The finished page table of a field array: as many pages as the first pass counted. */
  ghost predicate Paginates(pages: seq<Page>, marks: seq<bool>) {
    && |pages| == PageCount(marks, |marks|)
    && (forall k | 0 <= k < |pages| :: Holds(pages[k], marks, k))
  }

  /** Every field is in exactly one page. */
  lemma PagesPartition(pages: seq<Page>, marks: seq<bool>, j: nat, k: nat)
    requires Paginates(pages, marks) && j < |marks| && k < |pages|
    ensures PageOf(marks, j) < |pages| && InPage(pages[PageOf(marks, j)], j)
    ensures InPage(pages[k], j) ==> k == PageOf(marks, j)
  {
    PageOfMonotone(marks, j, |marks| - 1);
    assert Holds(pages[PageOf(marks, j)], marks, PageOf(marks, j)) && Holds(pages[k], marks, k);
  }

  /** A page begins exactly at the opening fields. */
  lemma PageStartIff(pages: seq<Page>, marks: seq<bool>, j: nat)
    requires Paginates(pages, marks) && j < |marks|
    ensures Opens(marks, j) <==> exists k :: 0 <= k < |pages| && pages[k].pmin == j
  {
    var k := PageOf(marks, j);
    PagesPartition(pages, marks, j, 0);
    assert Holds(pages[k], marks, k);
    if Opens(marks, j) {
      assert InPage(pages[k], pages[k].pmin);
      PageOfMonotone(marks, pages[k].pmin, j);
    }
    forall m | 0 <= m < |pages| && pages[m].pmin == j ensures Opens(marks, j) {
      assert Holds(pages[m], marks, m);
    }
  }

  /** The first page begins at 0, the last ends at the last field, and each begins where the one
      before it ends. */
  lemma PagesAbut(pages: seq<Page>, marks: seq<bool>, k: nat)
    requires Paginates(pages, marks) && k < |pages|
    ensures pages[0].pmin == 0 && pages[|pages| - 1].pmax == |marks| - 1
    ensures k + 1 < |pages| ==> pages[k].pmax + 1 == pages[k + 1].pmin
  {
    var n := |marks|;
    PagesPartition(pages, marks, 0, 0);
    PagesPartition(pages, marks, n - 1, 0);
    assert Holds(pages[k], marks, k) && Holds(pages[0], marks, 0) && Holds(pages[|pages| - 1], marks, |pages| - 1);
    assert PageCount(marks, 1) == PageCount(marks, 0) + 1;
    if k + 1 < |pages| {
      assert Holds(pages[k + 1], marks, k + 1);
      var e, s := pages[k].pmax, pages[k + 1].pmin;
      assert InPage(pages[k], e) && InPage(pages[k + 1], s);
      if s <= e { PageOfMonotone(marks, s, e); }
      assert e + 1 <= s;
      PageOfMonotone(marks, e + 1, s);
      PageOfMonotone(marks, e, e + 1);
      assert !InPage(pages[k], e + 1);
      assert PageOf(marks, e + 1) == k + 1;
    }
  }

  // ----- one step of the second pass -----

  /** The page in progress after n fields. */
  ghost predicate InProgress(p: Page, marks: seq<bool>, k: nat, n: nat)
    requires n <= |marks|
  {
    && 0 <= p.pmin < n && Opens(marks, p.pmin)
    && (forall i: nat | i < n :: PageOf(marks, i) == k <==> p.pmin <= i)
  }

  /** Field j opens a page: the page in progress is complete, and the new one holds j alone. */
  lemma PageCloses(p: Page, q: Page, marks: seq<bool>, k: nat, j: nat)
    requires 0 < j < |marks| && marks[j] && k == PageOf(marks, j - 1)
    requires InProgress(p, marks, k, j) && q.pmin == j
    ensures Holds(p.(pmax := j - 1), marks, k) && InProgress(q, marks, k + 1, j + 1)
    ensures PageOf(marks, j) == k + 1
  {
    forall i: nat | i < |marks| ensures InPage(p.(pmax := j - 1), i) <==> PageOf(marks, i) == k {
      if i >= j { PageOfMonotone(marks, j, i); }
    }
    forall i: nat | i < j + 1 ensures PageOf(marks, i) == k + 1 <==> j <= i {
      if i < j { PageOfMonotone(marks, i, j); }
    }
  }

  lemma PageGrows(p: Page, marks: seq<bool>, k: nat, j: nat)
    requires 0 < j < |marks| && !marks[j] && k == PageOf(marks, j - 1) && InProgress(p, marks, k, j)
    ensures InProgress(p, marks, k, j + 1) && PageOf(marks, j) == k
  {
  }

  lemma LastPageCloses(p: Page, marks: seq<bool>, k: nat)
    requires |marks| > 0 && InProgress(p, marks, k, |marks|)
    ensures Holds(p.(pmax := |marks| - 1), marks, k)
  {
  }
}
