/** new_form and free_form: a form is either fully connected or leaves no trace in the fields. */
module FormLife {
  import opened FormBase
  import opened FormPages
  import opened FormRings
  import opened FormConnect

  /** No field has an owner and none occurs twice. */
  ghost predicate AllFree(fields: seq<Field>, was: seq<Form?>)
    requires |was| == |fields|
  {
    FreeAndDistinct(fields, |fields|, was)
  }

  /** What Connect_Fields answers: the owners are looked at first, then the number of fields, and the
      page table is allocated last. `given` says that the array pointer is not null. */
  ghost function Answer(given: bool, fields: seq<Field>, was: seq<Form?>, alloc: bool): Code
    requires |was| == |fields|
  {
    if !given then E_OK
    else if !AllFree(fields, was) then E_CONNECTED
    else if |fields| == 0 || |fields| > SHORT_MAX then E_BAD_ARGUMENT
    else if !alloc then E_SYSTEM_ERROR
    else E_OK
  }

  /** When each code is answered: a field that has an owner, or occurs twice, is refused before the number of fields is
      looked at, and that before the page table is allocated. */
  lemma AnswerMeaning(given: bool, fields: seq<Field>, was: seq<Form?>, alloc: bool)
    requires |was| == |fields|
    ensures var taken := (exists i :: 0 <= i < |was| && was[i] != null)
                         || (exists i, j :: 0 <= i < j < |fields| && fields[i] == fields[j]);
      var err := Answer(given, fields, was, alloc);
      && (err == E_CONNECTED <==> given && taken)
      && (err == E_BAD_ARGUMENT <==> given && !taken && !(1 <= |fields| <= 32767))
      && (err == E_SYSTEM_ERROR <==> given && !taken && 1 <= |fields| <= 32767 && !alloc)
      && (err == E_OK <==> !given || (!taken && 1 <= |fields| <= 32767 && alloc))
  {
  }

  /** A form with its fields: paginated, sized, and every page a ring in screen order. */
  ghost predicate Connected(form: Form, fields: seq<Field>, rings: seq<seq<Field>>)
    reads form`page, form`maxpage, form`maxfield, form.page
    reads Members(fields)`form, Members(fields)`index, Members(fields)`page, Members(fields)`snext,
      Members(fields)`sprev
  {
    && form.page != null && form.page.Length == |rings| && form.maxpage == |rings| && form.maxfield == |fields|
    && Paginates(form.page[..], Marks(fields))
    && (forall i | 0 <= i < |fields| :: fields[i].form == form)
    && (forall i | 0 <= i < |rings| ::
          && Members(PageFields(fields, form.page[i])) <= Members(fields) && Members(rings[i]) <= Members(fields)
          && Done(fields, form.page[i], i, rings[i]))
  }

  /** Nothing of a field but its owner has changed. */
  twostate predicate OnlyOwners(fields: seq<Field>)
    reads Members(fields)
  {
    forall f | f in Members(fields) ::
      f.index == old(f.index) && f.page == old(f.page) && f.snext == old(f.snext) && f.sprev == old(f.sprev)
  }

  lemma FewPages(fields: seq<Field>)
    ensures PageCount(Marks(fields), |fields|) <= |fields|
  {
  }

  lemma RepeatedIsNotFree(fields: seq<Field>, n: nat, was: seq<Form?>)
    requires n < |fields| == |was| && (was[n] != null || fields[n] in Firsts(fields, n))
    ensures !AllFree(fields, was)
  {
    if was[n] == null {
      var i :| 0 <= i < n && fields[i] == fields[n];
      assert fields[i] == fields[n];
    }
  }

  /** The second and third passes, on fields all claimed and all different. */
  method BuildPages(form: Form, fields: seq<Field>, count: nat, pages: nat) returns (ghost rings: seq<seq<Field>>)
    requires 0 < count == |fields| <= SHORT_MAX && pages == PageCount(Marks(fields), |fields|)
    requires Distinct(fields) && forall i | 0 <= i < |fields| :: fields[i].form == form
    modifies form`rows, form`cols, form`maxfield, form`maxpage, form`page
    modifies Members(fields)`index, Members(fields)`page, Members(fields)`snext, Members(fields)`sprev
    ensures form.page != null && fresh(form.page) && Connected(form, fields, rings)
    ensures FormConnect.Sized(form, fields, |fields|, old(form.rows), old(form.cols))
  {
    form.page := new Page[pages];
    FillPages(form, fields);
    FewPages(fields);
    form.maxfield, form.maxpage := ToShort(count), ToShort(pages);
    rings := SortPages(form.page, fields);
    InsideArray(fields, form.page[..]);
  }

  lemma InsideArray(fields: seq<Field>, pages: seq<Page>)
    ensures forall i | 0 <= i < |pages| :: Members(PageFields(fields, pages[i])) <= Members(fields)
  {
  }

  /** The first pass and its checks: what remains is a free array of acceptable length, or the answer. */
  method CheckFields(form: Form, fields: seq<Field>, alloc: bool) returns (res: Code, count: nat, pages: nat)
    requires |fields| <= 65535
    modifies Members(fields)`form
    ensures res == Answer(true, fields, old(Owners(fields)), alloc)
    ensures res == E_OK ==> Distinct(fields) && (forall i | 0 <= i < |fields| :: fields[i].form == form)
    ensures res == E_OK ==> 0 < count == |fields| <= SHORT_MAX && pages == PageCount(Marks(fields), |fields|)
    ensures forall i | 0 <= i < |fields| ::
      fields[i].form == old(Owners(fields))[i] || (fields[i].form == form && old(Owners(fields))[i] == null)
  {
    var connected;
    ghost var was := Owners(fields);
    connected, count, pages := ClaimFields(form, fields);
    OwnedOrClaimed(form, fields, count, was);
    if connected {
      RepeatedIsNotFree(fields, count, was);
      res := E_CONNECTED;
    } else if count == 0 || ToShort(count) < 0 {
      res := E_BAD_ARGUMENT;
    } else {
      res := if alloc then E_OK else E_SYSTEM_ERROR;
    }
  }

  lemma OwnedOrClaimed(form: Form, fields: seq<Field>, n: nat, was: seq<Form?>)
    requires n <= |fields| == |was| && Claimed(form, fields, Firsts(fields, n), was) && FreeAndDistinct(fields, n, was)
    requires forall i, j | 0 <= i < |fields| && 0 <= j < |fields| && fields[i] == fields[j] :: was[i] == was[j]
    ensures forall i | 0 <= i < |fields| :: fields[i].form == was[i] || (fields[i].form == form && was[i] == null)
    ensures n == |fields| ==> AllFree(fields, was) && Distinct(fields)
    ensures n == |fields| ==> forall i | 0 <= i < n :: fields[i].form == form
  {
    forall i | 0 <= i < |fields| && fields[i] in Firsts(fields, n) ensures was[i] == null {
      var j :| 0 <= j < n && fields[j] == fields[i];
      assert was[j] == null;
    }
    forall i | 0 <= i < n ensures fields[i] in Firsts(fields, n) {}
  }

  method ConnectFields(form: Form, fields: seq<Field>, given: bool, alloc: bool)
    returns (res: Code, ghost rings: seq<seq<Field>>)
    requires |fields| <= 65535 && (given || fields == [])
    modifies form, Members(fields)`form
    modifies Members(fields)`index, Members(fields)`page, Members(fields)`snext, Members(fields)`sprev
    ensures form.field == fields && form.hasFields == given && form.posted == old(form.posted)
    ensures !given ==> form.maxpage == 0
    ensures res == Answer(given, fields, old(Owners(fields)), alloc)
    ensures res == E_OK && given ==> Connected(form, fields, rings)
    ensures res == E_OK && given ==> FormConnect.Sized(form, fields, |fields|, old(form.rows), old(form.cols))
    ensures res != E_OK ==> OnlyOwners(fields)
    ensures res != E_OK ==> forall i | 0 <= i < |fields| ::
      fields[i].form == old(Owners(fields))[i] || (fields[i].form == form && old(Owners(fields))[i] == null)
  {
    rings := [];
    form.field, form.hasFields := fields, given;
    form.maxfield, form.maxpage := 0, 0;
    if !given { return E_OK, []; }
    var count, pages;
    res, count, pages := CheckFields(form, fields, alloc);
    if res == E_OK { rings := BuildPages(form, fields, count, pages); }
  }

  // ----- what a connected form gives its user -----

  /** The fields of a page are an interval of the array, and its ring has the same fields, each once. */
  lemma PageBounds(form: Form, fields: seq<Field>, rings: seq<seq<Field>>, p: nat)
    requires Connected(form, fields, rings) && p < |rings|
    ensures var pg := form.page[p];
      && 0 <= pg.pmin <= pg.pmax < |fields| && |rings[p]| == pg.pmax - pg.pmin + 1
      && 0 <= pg.smin < |fields| && fields[pg.smin] == rings[p][0]
      && 0 <= pg.smax < |fields| && fields[pg.smax] == rings[p][pg.pmax - pg.pmin]
  {
    var pg, ring := form.page[p], rings[p];
    assert Holds(pg, Marks(fields), p) && Done(fields, pg, p, ring);
    FoundByIndex(fields, pg, p, ring, 0);
    FoundByIndex(fields, pg, p, ring, |ring| - 1);
  }

  /** Starting at the page's first field in screen order, `snext` leads through every field of the page
      exactly once, in screen order, and back to the start; the last before the return is `smax`. */
  lemma PageTraversal(form: Form, fields: seq<Field>, rings: seq<seq<Field>>, p: nat)
    requires Connected(form, fields, rings) && p < |rings|
    ensures var pg, n := form.page[p], form.page[p].pmax - form.page[p].pmin + 1;
      && 0 <= pg.pmin <= pg.pmax < |fields| && 0 <= pg.smin < |fields| && 0 <= pg.smax < |fields|
      && (forall i: nat | i < n :: Walk(fields[pg.smin], i) == rings[p][i])
      && Walk(fields[pg.smin], n) == fields[pg.smin] && Walk(fields[pg.smin], n - 1) == fields[pg.smax]
      && Members(rings[p]) == Members(fields[pg.pmin..pg.pmax + 1]) && |rings[p]| == n
      && Distinct(rings[p]) && forall i, j | 0 <= i < j < n ::
           rings[p][i].frow < rings[p][j].frow
           || (rings[p][i].frow == rings[p][j].frow && rings[p][i].fcol <= rings[p][j].fcol)
  {
    PageBounds(form, fields, rings, p);
    var pg, ring := form.page[p], rings[p];
    assert Done(fields, pg, p, ring);
    forall i: nat | i < |ring| ensures Walk(ring[0], i) == ring[i] { WalkRing(ring, 0, i); }
    WalkRing(ring, 0, |ring|);
  }

  /** Every field knows its page and its place, and `sprev` undoes `snext` there. */
  lemma FieldsOfPage(form: Form, fields: seq<Field>, rings: seq<seq<Field>>, p: nat, j: int)
    requires Connected(form, fields, rings) && p < |rings| && form.page[p].pmin <= j <= form.page[p].pmax
    ensures 0 <= j < |fields| && fields[j].page == p && fields[j].index == j && fields[j].form == form
    ensures fields[j].snext != null && fields[j].snext.sprev == fields[j] && fields[j].snext in rings[p]
  {
    PageBounds(form, fields, rings, p);
    var pg, ring := form.page[p], rings[p];
    var on := PageFields(fields, pg);
    assert Done(fields, pg, p, ring) && fields[j] == on[j - pg.pmin];
    assert fields[j] in Members(on);
    RingInverse(ring);
  }

  lemma RingInverse(ring: seq<Field>)
    requires Ring(ring)
    ensures forall i: nat | i < |ring| :: ring[i].snext != null && ring[i].snext.sprev == ring[i]
  {
    forall i: nat | i < |ring| ensures ring[i].snext != null && ring[i].snext.sprev == ring[i] {
      var k := if i + 1 < |ring| then i + 1 else 0;
      assert ring[i].snext == ring[k];
      assert ring[k].sprev == ring[if k > 0 then k - 1 else |ring| - 1];
    }
  }

  /** A field of the page is where its index says. */
  lemma FoundByIndex(fields: seq<Field>, pg: Page, p: int, ring: seq<Field>, i: int)
    requires 0 <= pg.pmin <= pg.pmax < |fields| && Done(fields, pg, p, ring) && 0 <= i < |ring|
    ensures 0 <= ring[i].index < |fields| && fields[ring[i].index] == ring[i]
  {
    var on := PageFields(fields, pg);
    assert ring[i] in Members(ring);
    var j :| 0 <= j < |on| && on[j] == ring[i];
    assert on[j].index == pg.pmin + j;
  }

  /** From a fresh form, with extents that fit, the form is exactly as large as its largest field. */
  lemma FreshFormSize(form: Form, fields: seq<Field>)
    requires FormConnect.Sized(form, fields, |fields|, 0, 0) && fields != []
    requires forall i | 0 <= i < |fields| :: 0 < RowEnds(fields)[i] <= SHORT_MAX && 0 < ColEnds(fields)[i] <= SHORT_MAX
    ensures forall i | 0 <= i < |fields| :: fields[i].frow + fields[i].rows <= form.rows
    ensures forall i | 0 <= i < |fields| :: fields[i].fcol + fields[i].cols <= form.cols
    ensures exists i :: 0 <= i < |fields| && fields[i].frow + fields[i].rows == form.rows
    ensures exists i :: 0 <= i < |fields| && fields[i].fcol + fields[i].cols == form.cols
  {
    var r, c := RowEnds(fields), ColEnds(fields);
    assert r[..|r|] == r && c[..|c|] == c;
    WidestIsMax(r);
    WidestIsMax(c);
    forall i | 0 <= i < |fields|
      ensures fields[i].frow + fields[i].rows <= form.rows && fields[i].fcol + fields[i].cols <= form.cols
    {
      assert r[i] <= form.rows && c[i] <= form.cols;
    }
    assert r[0] <= form.rows && c[0] <= form.cols;
    var i :| 0 <= i < |r| && r[i] == form.rows;
    var k :| 0 <= k < |c| && c[k] == form.cols;
    assert fields[i].frow + fields[i].rows == form.rows && fields[k].fcol + fields[k].cols == form.cols;
  }

  // ----- taking a form apart -----

  method DisconnectFields(form: Form)
    modifies form, Members(form.field)`form
    ensures old(form.hasFields) ==> forall f | f in old(form.field) ::
      f.form == if old(f.form) == form then null else old(f.form)
    ensures !old(form.hasFields) ==> forall f | f in old(form.field) :: f.form == old(f.form)
    ensures old(form.hasFields) ==> form.page == null && !form.hasFields
  {
    if form.hasFields {
      var fields := form.field;
      for i := 0 to |fields|
        invariant form.field == fields == old(form.field)
        invariant forall f | f in fields ::
          f.form == if old(f.form) == form && f in fields[..i] then null else old(f.form)
      {
        assert fields[..i + 1] == fields[..i] + [fields[i]];
        if fields[i].form == form { fields[i].form := null; }
      }
      assert fields[..|fields|] == fields;
      form.rows, form.cols, form.maxfield, form.maxpage := 0, 0, -1, -1;
      form.field, form.hasFields, form.page := [], false, null;
    }
  }

  ghost function Held(form: Form?): set<Field>
    reads form
  {
    if form == null then {} else Members(form.field)
  }

  /** free_form: a posted form is left alone, any other gives up exactly the fields it owns. */
  method FreeForm(form: Form?) returns (res: Code)
    modifies form, Held(form)`form
    ensures res == if form == null then E_BAD_ARGUMENT else if old(form.posted) then E_POSTED else E_OK
    ensures form != null && old(form.hasFields) ==> forall f | f in old(form.field) ::
      f.form == if res == E_OK && old(f.form) == form then null else old(f.form)
    ensures form != null && !old(form.hasFields) ==> forall f | f in old(form.field) :: f.form == old(f.form)
  {
    if form == null { return E_BAD_ARGUMENT; }
    if form.posted { return E_POSTED; }
    DisconnectFields(form);
    res := E_OK;
  }

  /** new_form. It gives a form exactly when both allocations succeed and the array is null, or free
      and of acceptable length; otherwise every field is as it was, whatever the array held. */
  method NewForm(fields: seq<Field>, given: bool, formAlloc: bool, pageAlloc: bool)
    returns (form: Form?, err: Code, ghost rings: seq<seq<Field>>)
    requires |fields| <= 65535 && (given || fields == [])
    modifies Members(fields)`form, Members(fields)`index, Members(fields)`page
    modifies Members(fields)`snext, Members(fields)`sprev
    ensures form == null || fresh(form)
    ensures err == if formAlloc then Answer(given, fields, old(Owners(fields)), pageAlloc) else E_SYSTEM_ERROR
    ensures form != null <==> err == E_OK
    ensures form != null && given ==> Connected(form, fields, rings) && form.curpage == 0
    ensures form != null && given ==> FormConnect.Sized(form, fields, |fields|, 0, 0)
    ensures form != null && !given ==> form.curpage == -1 && form.maxpage == 0
    ensures form == null ==> OnlyOwners(fields) && Owners(fields) == old(Owners(fields))
  {
    form, err, rings := null, E_SYSTEM_ERROR, [];
    if formAlloc {
      var f := new Form();
      ghost var was := Owners(fields);
      err, rings := ConnectFields(f, fields, given, pageAlloc);
      if err == E_OK {
        f.curpage := if f.maxpage > 0 then 0 else -1;
        form := f;
      } else {
        ghost var left := Owners(fields);
        var _ := FreeForm(f);
        forall i | 0 <= i < |fields| ensures fields[i].form == if left[i] == f then null else left[i] {
          assert fields[i] in fields;
        }
        OwnersRestored(f, fields, left, was);
      }
    }
  }

  /** After free_form, the fields of a form whose connection failed belong to whom they did before. */
  lemma OwnersRestored(form: Form, fields: seq<Field>, left: seq<Form?>, was: seq<Form?>)
    requires |was| == |left| == |fields|
    requires forall i | 0 <= i < |was| :: left[i] == was[i] || (left[i] == form && was[i] == null)
    requires forall i | 0 <= i < |was| :: was[i] != form
    requires forall i | 0 <= i < |was| :: fields[i].form == if left[i] == form then null else left[i]
    ensures Owners(fields) == was
  {
  }
}
