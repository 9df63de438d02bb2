/** The rings of fields that share a buffer, through new, dup, link and free. */
module FieldRings {
  import opened FieldStore

  function Next(n: nat, i: nat): (k: nat)
    requires i < n
    ensures k < n
  {
    if i + 1 < n then i + 1 else 0
  }

  /** A new field alone on its ring, with a buffer of its own. */
  function AloneRings(rings: map<Addr, seq<Addr>>, at: Addr, buf: Addr): map<Addr, seq<Addr>> {
    rings[buf := [at]]
  }

  /** A ring seen only through fields that did not change is still a ring. */
  lemma LoopUnchanged(was: map<Addr, FieldCell>, now: map<Addr, FieldCell>, ring: seq<Addr>)
    requires Loop(was, ring)
    requires forall f | f in ring :: f in now && now[f].link == was[f].link
    ensures Loop(now, ring)
  {
    forall i {:trigger now[ring[i]]} | 0 <= i < |ring|
      ensures now[ring[i]].link == ring[if i + 1 < |ring| then i + 1 else 0]
    {
      assert ring[i] in ring;
      assert was[ring[i]].link == ring[if i + 1 < |ring| then i + 1 else 0];
    }
  }

  lemma AloneKeepsRings(fields: map<Addr, FieldCell>, rings: map<Addr, seq<Addr>>, at: Addr, cell: FieldCell)
    requires Rings(fields, rings) && at != NULL && at !in fields && cell.link == at
    requires cell.buf != NULL && cell.buf !in rings
    ensures Rings(fields[at := cell], AloneRings(rings, at, cell.buf))
  {
    var now := fields[at := cell];
    var after := AloneRings(rings, at, cell.buf);
    forall b | b in after ensures Loop(now, after[b]) && forall f | f in after[b] :: now[f].buf == b {
      if b != cell.buf { LoopUnchanged(fields, now, rings[b]); }
    }
    forall f | f in now ensures now[f].buf in after && f in after[now[f].buf] {}
  }

  /** Changing type or owner of a field leaves its ring alone. */
  lemma SameLinksKeepRings(fields: map<Addr, FieldCell>, rings: map<Addr, seq<Addr>>, f: Addr, cell: FieldCell)
    requires Rings(fields, rings) && f in fields && cell.link == fields[f].link && cell.buf == fields[f].buf
    ensures Rings(fields[f := cell], rings)
  {
    var now := fields[f := cell];
    forall b | b in rings ensures Loop(now, rings[b]) { LoopUnchanged(fields, now, rings[b]); }
  }

  // ----- linking in -----

  /** `at` put behind place k of a ring. */
  function Grown(ring: seq<Addr>, k: nat, at: Addr): seq<Addr>
    requires k < |ring|
  {
    ring[..k + 1] + [at] + ring[k + 1..]
  }

  lemma SplicedLoop(fields: map<Addr, FieldCell>, ring: seq<Addr>, k: nat, at: Addr, cell: FieldCell)
    requires Loop(fields, ring) && k < |ring| && at !in fields
    ensures Loop(Spliced(fields, ring[k], at, cell), Grown(ring, k, at))
  {
    var now, g := Spliced(fields, ring[k], at, cell), Grown(ring, k, at);
    assert ring[k] in ring;
    forall f | f in g ensures f in now { GrownMembers(ring, k, at, f); }
    GrownDistinct(ring, k, at);
    forall i {:trigger now[g[i]]} | 0 <= i < |g| ensures now[g[i]].link == g[if i + 1 < |g| then i + 1 else 0] {
      var o := if i <= k then i else i - 1;
      assert ring[o] in ring;
      assert fields[ring[o]].link == ring[if o + 1 < |ring| then o + 1 else 0];
    }
  }

  lemma GrownDistinct(ring: seq<Addr>, k: nat, at: Addr)
    requires k < |ring| && at !in ring && forall i, j | 0 <= i < j < |ring| :: ring[i] != ring[j]
    ensures forall i, j | 0 <= i < j < |ring| + 1 :: Grown(ring, k, at)[i] != Grown(ring, k, at)[j]
  {
    var g := Grown(ring, k, at);
    forall i, j | 0 <= i < j < |g| ensures g[i] != g[j] {
      assert i == k + 1 || ring[if i <= k then i else i - 1] in ring;
      assert j == k + 1 || ring[if j <= k then j else j - 1] in ring;
    }
  }

  lemma GrownMembers(ring: seq<Addr>, k: nat, at: Addr, f: Addr)
    requires k < |ring|
    ensures f in Grown(ring, k, at) <==> f in ring || f == at
  {
    var g := Grown(ring, k, at);
    assert g[k + 1] == at;
    if f in ring {
      var i :| 0 <= i < |ring| && ring[i] == f;
      assert g[if i <= k then i else i + 1] == f;
    }
  }

  /** link_field keeps the rings: the new field is behind the one it is linked to. */
  lemma LinkKeepsRings(fields: map<Addr, FieldCell>, rings: map<Addr, seq<Addr>>, f: Addr, at: Addr, cell: FieldCell)
    returns (after: map<Addr, seq<Addr>>)
    requires Rings(fields, rings) && f in fields && at != NULL && at !in fields && cell.buf == fields[f].buf
    ensures Rings(Spliced(fields, f, at, cell), after) && after.Keys == rings.Keys
  {
    var b, now := cell.buf, Spliced(fields, f, at, cell);
    var k :| 0 <= k < |rings[b]| && rings[b][k] == f;
    after := rings[b := Grown(rings[b], k, at)];
    SplicedLoop(fields, rings[b], k, at, cell);
    forall g ensures g in after[b] <==> g in rings[b] || g == at { GrownMembers(rings[b], k, at, g); }
    MoreKeepsRings(fields, rings, f, at, cell, after[b]);
  }

  /** The ring of f, with the new field on it, among the rings of other buffers. */
  lemma MoreKeepsRings(fields: map<Addr, FieldCell>, rings: map<Addr, seq<Addr>>, f: Addr, at: Addr, cell: FieldCell,
                       ring: seq<Addr>)
    requires Rings(fields, rings) && f in fields && at != NULL && at !in fields && cell.buf == fields[f].buf
    requires Loop(Spliced(fields, f, at, cell), ring)
    requires forall g :: g in ring <==> g in rings[cell.buf] || g == at
    ensures Rings(Spliced(fields, f, at, cell), rings[cell.buf := ring])
  {
    var now, after := Spliced(fields, f, at, cell), rings[cell.buf := ring];
    forall c | c in after ensures Loop(now, after[c]) && forall g | g in after[c] :: now[g].buf == c {
      if c != cell.buf { LoopUnchanged(fields, now, rings[c]); }
    }
  }

  // ----- taking out -----

  /** Place k taken out of a ring. */
  function Shrunk(ring: seq<Addr>, k: nat): seq<Addr>
    requires k < |ring|
  {
    ring[..k] + ring[k + 1..]
  }

  lemma ShrunkMembers(ring: seq<Addr>, k: nat, f: Addr)
    requires k < |ring| && forall i, j | 0 <= i < j < |ring| :: ring[i] != ring[j]
    ensures f in Shrunk(ring, k) <==> f in ring && f != ring[k]
  {
    var g := Shrunk(ring, k);
    if f in ring && f != ring[k] {
      var i :| 0 <= i < |ring| && ring[i] == f;
      assert g[if i < k then i else i - 1] == f;
    }
    if f in g {
      var i :| 0 <= i < |g| && g[i] == f;
      assert ring[if i < k then i else i + 1] == f;
    }
  }

  lemma BypassedLoop(fields: map<Addr, FieldCell>, ring: seq<Addr>, k: nat)
    requires Loop(fields, ring) && k < |ring| && |ring| > 1
    ensures ring[k] in fields && Loop(Bypassed(fields, ring[k]), Shrunk(ring, k))
  {
    assert ring[k] in ring;
    var now, g := Bypassed(fields, ring[k]), Shrunk(ring, k);
    assert fields[ring[k]].link == ring[if k + 1 < |ring| then k + 1 else 0];
    forall f | f in g ensures f in now { ShrunkMembers(ring, k, f); }
    forall i {:trigger now[g[i]]} | 0 <= i < |g| ensures now[g[i]].link == g[if i + 1 < |g| then i + 1 else 0] {
      var o := if i < k then i else i + 1;
      assert ring[o] in ring;
      assert fields[ring[o]].link == ring[if o + 1 < |ring| then o + 1 else 0];
    }
  }

  /** A field outside the ring of f is not touched when f goes. */
  lemma OthersUntouched(fields: map<Addr, FieldCell>, rings: map<Addr, seq<Addr>>, f: Addr, b: Addr)
    requires Rings(fields, rings) && f in fields && b in rings && b != fields[f].buf
    ensures forall g | g in rings[b] :: g in Bypassed(fields, f) && Bypassed(fields, f)[g] == fields[g]
  {
    var ring := rings[b];
    forall g | g in ring ensures g in Bypassed(fields, f) && fields[g].link != f {
      var i :| 0 <= i < |ring| && ring[i] == g;
      assert fields[ring[i]].link == ring[if i + 1 < |ring| then i + 1 else 0];
      assert fields[g].link in ring;
    }
  }

  /** A field is linked to itself exactly when it is alone on its ring. */
  lemma AloneIff(fields: map<Addr, FieldCell>, rings: map<Addr, seq<Addr>>, f: Addr)
    requires Rings(fields, rings) && f in fields
    ensures fields[f].link == f <==> |rings[fields[f].buf]| == 1
    ensures fields[f].link == f <==> forall g | g in fields && g != f :: fields[g].buf != fields[f].buf
  {
    var ring := rings[fields[f].buf];
    var k :| 0 <= k < |ring| && ring[k] == f;
    assert fields[ring[k]].link == ring[if k + 1 < |ring| then k + 1 else 0];
    if fields[f].link != f { assert fields[f].link in ring; }
  }

  /** What is left when f leaves the ring of its buffer, which becomes `rest`. */
  lemma RestKeepsRings(fields: map<Addr, FieldCell>, rings: map<Addr, seq<Addr>>, f: Addr, after: map<Addr, seq<Addr>>)
    requires Rings(fields, rings) && f in fields
    requires forall c | c in after && c != fields[f].buf :: c in rings && after[c] == rings[c]
    requires forall c | c in rings && c != fields[f].buf :: c in after
    requires fields[f].buf in after ==> Loop(Bypassed(fields, f), after[fields[f].buf])
    requires forall g | g in rings[fields[f].buf] && g != f :: fields[f].buf in after && g in after[fields[f].buf]
    requires fields[f].buf in after ==> forall g | g in after[fields[f].buf] :: g in rings[fields[f].buf]
    ensures Rings(Bypassed(fields, f), after)
  {
    var now := Bypassed(fields, f);
    forall c | c in after ensures Loop(now, after[c]) && forall g | g in after[c] :: now[g].buf == c {
      if c != fields[f].buf {
        OthersUntouched(fields, rings, f, c);
        LoopUnchanged(fields, now, rings[c]);
      }
    }
  }

  /** free_field keeps the rings, and takes the ring away with its last member. */
  lemma FreeKeepsRings(fields: map<Addr, FieldCell>, rings: map<Addr, seq<Addr>>, f: Addr)
    returns (after: map<Addr, seq<Addr>>)
    requires Rings(fields, rings) && f in fields
    ensures Rings(Bypassed(fields, f), after)
    ensures after.Keys == if fields[f].link == f then rings.Keys - {fields[f].buf} else rings.Keys
  {
    var b := fields[f].buf;
    var ring := rings[b];
    var k :| 0 <= k < |ring| && ring[k] == f;
    AloneIff(fields, rings, f);
    if fields[f].link == f {
      after := rings - {b};
    } else {
      after := rings[b := Shrunk(ring, k)];
      BypassedLoop(fields, ring, k);
      forall g ensures g in Shrunk(ring, k) <==> g in ring && g != f { ShrunkMembers(ring, k, g); }
    }
    RestKeepsRings(fields, rings, f, after);
  }

  // ----- what rings mean -----

  /** The field reached from f by n steps along `link`. */
  function Follow(fields: map<Addr, FieldCell>, f: Addr, n: nat): Addr
    decreases n
  {
    if n == 0 || f !in fields then f else Follow(fields, fields[f].link, n - 1)
  }

  lemma {:induction false} FollowLoop(fields: map<Addr, FieldCell>, ring: seq<Addr>, i: nat, n: nat)
    requires Loop(fields, ring) && i < |ring| && n <= |ring|
    ensures Follow(fields, ring[i], n) == ring[if i + n < |ring| then i + n else i + n - |ring|]
    decreases n
  {
    assert ring[i] in ring;
    if n > 0 {
      assert fields[ring[i]].link == ring[Next(|ring|, i)];
      FollowLoop(fields, ring, Next(|ring|, i), n - 1);
    }
  }

  lemma {:induction false} FollowStays(fields: map<Addr, FieldCell>, rings: map<Addr, seq<Addr>>, f: Addr, n: nat)
    requires Rings(fields, rings) && f in fields
    ensures Follow(fields, f, n) in fields && fields[Follow(fields, f, n)].buf == fields[f].buf
    decreases n
  {
    if n > 0 {
      var ring := rings[fields[f].buf];
      var k :| 0 <= k < |ring| && ring[k] == f;
      assert fields[ring[k]].link == ring[Next(|ring|, k)];
      assert fields[f].link in ring;
      FollowStays(fields, rings, fields[f].link, n - 1);
    }
  }

  lemma StepsBetween(fields: map<Addr, FieldCell>, ring: seq<Addr>, f: Addr, g: Addr) returns (n: nat)
    requires Loop(fields, ring) && f in ring && g in ring
    ensures Follow(fields, f, n) == g
  {
    var i :| 0 <= i < |ring| && ring[i] == f;
    var k :| 0 <= k < |ring| && ring[k] == g;
    n := if i <= k then k - i else |ring| - i + k;
    FollowLoop(fields, ring, i, n);
  }

  /** Two fields share a buffer exactly when `link` leads from one to the other. */
  lemma SameBufferIff(fields: map<Addr, FieldCell>, rings: map<Addr, seq<Addr>>, f: Addr, g: Addr)
    requires Rings(fields, rings) && f in fields && g in fields
    ensures fields[f].buf == fields[g].buf <==> exists n: nat :: Follow(fields, f, n) == g
  {
    if fields[f].buf == fields[g].buf { var n := StepsBetween(fields, rings[fields[f].buf], f, g); }
    forall n: nat | Follow(fields, f, n) == g ensures fields[f].buf == fields[g].buf {
      FollowStays(fields, rings, f, n);
    }
  }
}
