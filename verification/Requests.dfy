/** Requests as text: `sprintf` on one side, `sscanf` on the other. */
module Requests {

  datatype Option<+T> = None | Some(value: T)

  datatype Req = Req(id: int, nom: string, infos: string)

  /** Widths of the conversions in unserial_req. */
  const NOM_SCAN := 99
  const SERVER_SCAN := 999
  const CLIENT_SCAN := 99

  // ----- printing -----

  function DigitChar(d: int): (c: char)
    requires 0 <= d < 10
    ensures IsDigit(c) && DigitValue(c) == d
  {
    '0' + d as char
  }

  predicate IsDigit(c: char) { '0' <= c <= '9' }

  function DigitValue(c: char): int
    requires IsDigit(c)
  {
    c as int - '0' as int
  }

  function PrintNat(n: nat): (s: string)
    ensures s != [] && AllDigits(s)
  {
    if n < 10 then [DigitChar(n)] else PrintNat(n / 10) + [DigitChar(n % 10)]
  }

  predicate AllDigits(s: string) { forall i | 0 <= i < |s| :: IsDigit(s[i]) }

  /** `%d` */
  function PrintInt(n: int): (s: string)
    ensures s != []
  {
    if n < 0 then "-" + PrintNat(-n) else PrintNat(n)
  }

  /** serial_req */
  function Serial(r: Req): string {
    PrintInt(r.id) + ";" + r.nom + ";" + r.infos
  }

  /** `%d;%d;...` */
  function PrintInts(v: seq<int>): string {
    if |v| == 0 then "" else if |v| == 1 then PrintInt(v[0]) else PrintInt(v[0]) + ";" + PrintInts(v[1..])
  }

  // ----- scanning -----

  predicate IsSpace(c: char) {
    c == ' ' || c == '\t' || c == '\n' || c == '\r' || c == '\U{0B}' || c == '\U{0C}'
  }

  function SkipSpace(s: string): string {
    if s != [] && IsSpace(s[0]) then SkipSpace(s[1..]) else s
  }

  /** How many leading characters satisfy p, at most w. */
  function Span(s: string, p: char -> bool, w: nat): (n: nat)
    ensures n <= |s| && n <= w && forall i | 0 <= i < n :: p(s[i])
    ensures n < |s| && n < w ==> !p(s[n])
  {
    if s == [] || w == 0 || !p(s[0]) then 0 else 1 + Span(s[1..], p, w - 1)
  }

  function NatValue(s: string): nat
    requires AllDigits(s)
  {
    if s == [] then 0 else 10 * NatValue(s[..|s| - 1]) + DigitValue(s[|s| - 1])
  }

  function ScanNat(s: string): Option<(int, string)> {
    var n := Span(s, IsDigit, |s|);
    if n == 0 then None else Some((NatValue(s[..n]), s[n..]))
  }

  /** `%d` */
  function ScanInt(s: string): Option<(int, string)> {
    var t := SkipSpace(s);
    if t != [] && t[0] == '-' then
      match ScanNat(t[1..]) { case None => None case Some((v, rest)) => Some((-v, rest)) }
    else if t != [] && t[0] == '+' then ScanNat(t[1..])
    else ScanNat(t)
  }

  /** An ordinary character of the format. */
  function ScanLiteral(s: string, c: char): Option<string> {
    if s != [] && s[0] == c then Some(s[1..]) else None
  }

  predicate NotSemicolon(c: char) { c != ';' }

  predicate NotSpace(c: char) { !IsSpace(c) }

  /** `%w[^;]` */
  function ScanField(s: string, w: nat): Option<(string, string)> {
    var n := Span(s, NotSemicolon, w);
    if n == 0 then None else Some((s[..n], s[n..]))
  }

  /** `%ws` */
  function ScanWord(s: string, w: nat): Option<(string, string)> {
    var t := SkipSpace(s);
    var n := Span(t, NotSpace, w);
    if n == 0 then None else Some((t[..n], t[n..]))
  }

  /** unserial_req with infos width w: `%d;%99[^;];%ws`. A member whose conversion is not reached
      keeps its prior value. */
  function Unserial(s: string, w: nat, prior: Req): Req {
    match ScanInt(s)
    case None => prior
    case Some((id, s1)) =>
      var r1 := prior.(id := id);
      match ScanLiteral(s1, ';')
      case None => r1
      case Some(s2) =>
        match ScanField(s2, NOM_SCAN)
        case None => r1
        case Some((nom, s3)) =>
          var r2 := r1.(nom := nom);
          match ScanLiteral(s3, ';')
          case None => r2
          case Some(s4) =>
            match ScanWord(s4, w)
            case None => r2
            case Some((infos, _)) => r2.(infos := infos)
  }

  /** `%d;%d;...`, n conversions. */
  function ScanInts(s: string, n: nat): Option<(seq<int>, string)>
    decreases n
  {
    if n == 0 then Some(([], s))
    else
      match ScanInt(s)
      case None => None
      case Some((v, rest)) =>
        if n == 1 then Some(([v], rest))
        else
          match ScanLiteral(rest, ';')
          case None => None
          case Some(t) =>
            match ScanInts(t, n - 1)
            case None => None
            case Some((vs, u)) => Some(([v] + vs, u))
  }

  // ----- round trips -----

  lemma {:induction false} SpanWhole(s: string, rest: string, p: char -> bool, w: nat)
    requires |s| <= w && (forall i | 0 <= i < |s| :: p(s[i]))
    requires |s| == w || rest == [] || !p(rest[0])
    ensures Span(s + rest, p, w) == |s|
  {
    if s == [] {
      assert s + rest == rest;
    } else {
      assert (s + rest)[1..] == s[1..] + rest;
      SpanWhole(s[1..], rest, p, w - 1);
    }
  }

  lemma {:induction false} NatRoundTrip(n: nat)
    ensures NatValue(PrintNat(n)) == n
  {
    if n >= 10 {
      NatRoundTrip(n / 10);
      var s := PrintNat(n);
      assert s[..|s| - 1] == PrintNat(n / 10);
    } else {
      assert PrintNat(n)[..0] == [];
    }
  }

  predicate NoDigitFirst(s: string) { s == [] || !IsDigit(s[0]) }

  lemma ScanNatPrinted(n: nat, rest: string)
    requires NoDigitFirst(rest)
    ensures ScanNat(PrintNat(n) + rest) == Some((n, rest))
  {
    var s := PrintNat(n);
    SpanLonger(s, rest);
    NatRoundTrip(n);
    assert (s + rest)[..|s|] == s && (s + rest)[|s|..] == rest;
  }

  lemma SpanLonger(s: string, rest: string)
    requires AllDigits(s) && NoDigitFirst(rest)
    ensures Span(s + rest, IsDigit, |s + rest|) == |s|
  {
    SpanWhole(s, rest, IsDigit, |s + rest|);
  }

  lemma ScanIntPositive(n: nat, rest: string)
    requires NoDigitFirst(rest)
    ensures ScanInt(PrintNat(n) + rest) == Some((n, rest))
  {
    ScanNatPrinted(n, rest);
    var s := PrintNat(n) + rest;
    var c := PrintNat(n)[0];
    assert s[0] == c && IsDigit(c) && !IsSpace(c) && c != '-' && c != '+';
    assert SkipSpace(s) == s;
  }

  lemma ScanIntNegative(v: int, rest: string)
    requires v < 0 && NoDigitFirst(rest)
    ensures ScanInt("-" + (PrintNat(-v) + rest)) == Some((v, rest))
  {
    var t := PrintNat(-v) + rest;
    assert ScanNat(t) == Some((-v, rest)) by { ScanNatPrinted(-v, rest); }
    MinusSign(t);
  }

  lemma MinusSign(t: string)
    ensures SkipSpace("-" + t) == "-" + t && ("-" + t)[0] == '-' && ("-" + t)[1..] == t
  {
  }

  /** `%d` reads back any printed integer and stops at the first non-digit. */
  lemma ScanIntPrinted(n: int, rest: string)
    requires NoDigitFirst(rest)
    ensures ScanInt(PrintInt(n) + rest) == Some((n, rest))
  {
    if n < 0 {
      assert PrintInt(n) + rest == "-" + (PrintNat(-n) + rest);
      ScanIntNegative(n, rest);
    } else {
      ScanIntPositive(n, rest);
    }
  }

  lemma ScanFieldWhole(s: string, rest: string)
    requires 0 < |s| <= NOM_SCAN && (forall i | 0 <= i < |s| :: NotSemicolon(s[i]))
    ensures ScanField(s + (";" + rest), NOM_SCAN) == Some((s, ";" + rest))
  {
    var tail := ";" + rest;
    SpanWhole(s, tail, NotSemicolon, NOM_SCAN);
    assert (s + tail)[..|s|] == s && (s + tail)[|s|..] == tail;
  }

  /** What a conversion of width w leaves of a word: at most its first w characters. */
  function Cut(s: string, w: nat): string { if |s| <= w then s else s[..w] }

  lemma ScanWordCut(s: string, w: nat)
    requires s != [] && w > 0 && (forall i | 0 <= i < |s| :: NotSpace(s[i]))
    ensures ScanWord(s, w) == Some((Cut(s, w), s[|Cut(s, w)|..]))
  {
    assert NotSpace(s[0]);
    assert SkipSpace(s) == s;
    var c := Cut(s, w);
    assert s == c + s[|c|..];
    SpanWhole(c, s[|c|..], NotSpace, w);
    assert s[..|c|] == c;
  }

  lemma ScanLiteralFirst(c: char, rest: string)
    ensures ScanLiteral([c] + rest, c) == Some(rest)
  {
    assert ([c] + rest)[1..] == rest;
  }

  /** The names and payloads that survive: nonempty, no semicolon in the one, no white space in the
      other, and short enough for the conversions. */
  predicate Plain(r: Req, w: nat) {
    && 0 < |r.nom| <= NOM_SCAN && (forall i | 0 <= i < |r.nom| :: NotSemicolon(r.nom[i]))
    && 0 < |r.infos| <= w && (forall i | 0 <= i < |r.infos| :: NotSpace(r.infos[i]))
  }

  /** Parsing the printed request gives it back, whatever the receiving structure held. */
  ghost predicate RoundTrips(r: Req, w: nat) {
    forall prior :: Unserial(Serial(r), w, prior) == r
  }

  /** A request whose name is plain and whose payload is one word arrives with its payload cut to the width. */
  lemma PayloadCut(r: Req, w: nat, prior: Req)
    requires 0 < |r.nom| <= NOM_SCAN && (forall i | 0 <= i < |r.nom| :: NotSemicolon(r.nom[i]))
    requires r.infos != [] && w > 0 && (forall i | 0 <= i < |r.infos| :: NotSpace(r.infos[i]))
    ensures Unserial(Serial(r), w, prior) == r.(infos := Cut(r.infos, w))
  {
    var s4 := r.infos;
    var s3 := ";" + s4;
    var s2 := r.nom + s3;
    var s1 := ";" + s2;
    var s := PrintInt(r.id) + s1;
    assert Serial(r) == s;
    assert ScanInt(s) == Some((r.id, s1)) by { ScanIntPrinted(r.id, s1); }
    assert ScanLiteral(s1, ';') == Some(s2) by { ScanLiteralFirst(';', s2); }
    assert ScanField(s2, NOM_SCAN) == Some((r.nom, s3)) by { ScanFieldWhole(r.nom, s4); }
    assert ScanLiteral(s3, ';') == Some(s4) by { ScanLiteralFirst(';', s4); }
    assert ScanWord(s4, w) == Some((Cut(s4, w), s4[|Cut(s4, w)|..])) by { ScanWordCut(s4, w); }
    UnserialSteps(s, w, prior, r.(infos := Cut(s4, w)), s1, s2, s3, s4, s4[|Cut(s4, w)|..]);
  }

  lemma PlainRoundTrips(r: Req, w: nat, prior: Req)
    requires Plain(r, w)
    ensures Unserial(Serial(r), w, prior) == r
  {
    PayloadCut(r, w, prior);
  }

  /** The five conversions, each succeeding. */
  lemma UnserialSteps(s: string, w: nat, prior: Req, r: Req, s1: string, s2: string, s3: string, s4: string, s5: string)
    requires ScanInt(s) == Some((r.id, s1)) && ScanLiteral(s1, ';') == Some(s2)
    requires ScanField(s2, NOM_SCAN) == Some((r.nom, s3)) && ScanLiteral(s3, ';') == Some(s4)
    requires ScanWord(s4, w) == Some((r.infos, s5))
    ensures Unserial(s, w, prior) == r
  {
  }

  /** Anything the scan stores is plain, so nothing else can come back unchanged. */
  lemma OnlyPlainRoundTrips(r: Req, w: nat, prior: Req)
    requires prior.nom != r.nom && prior.infos != r.infos && Unserial(Serial(r), w, prior) == r
    ensures Plain(r, w)
  {
  }

  /** A request round trips exactly when it is plain. */
  lemma RoundTripIff(r: Req, w: nat)
    ensures RoundTrips(r, w) <==> Plain(r, w)
  {
    if Plain(r, w) {
      forall prior ensures Unserial(Serial(r), w, prior) == r { PlainRoundTrips(r, w, prior); }
    }
    if RoundTrips(r, w) {
      var prior := Req(0, r.nom + "x", r.infos + "x");
      assert |prior.nom| != |r.nom| && |prior.infos| != |r.infos|;
      OnlyPlainRoundTrips(r, w, prior);
    }
  }

  /** The acknowledgement of the server, whose payload is a blank, leaves the payload member as it was. */
  lemma BlankPayloadLost(w: nat, prior: Req)
    ensures Unserial(Serial(Req(0, "ok", " ")), w, prior) == Req(0, "ok", prior.infos)
    ensures !RoundTrips(Req(0, "ok", " "), w)
  {
    var s2 := "ok" + (";" + " ");
    var s := PrintInt(0) + (";" + s2);
    assert Serial(Req(0, "ok", " ")) == s;
    assert ScanInt(s) == Some((0, ";" + s2)) by { ScanIntPrinted(0, ";" + s2); }
    assert ScanLiteral(";" + s2, ';') == Some(s2) by { ScanLiteralFirst(';', s2); }
    assert ScanField(s2, NOM_SCAN) == Some(("ok", ";" + " ")) by { ScanFieldWhole("ok", " "); }
    assert ScanLiteral(";" + " ", ';') == Some(" ") by { ScanLiteralFirst(';', " "); }
    assert SkipSpace(" ") == "" by { assert " "[1..] == ""; }
    assert ScanWord(" ", w) == None;
    RoundTripIff(Req(0, "ok", " "), w);
    assert IsSpace(Req(0, "ok", " ").infos[0]);
  }

  lemma ScanIntsStep(s: string, t: string, x: int, vs: seq<int>, all: seq<int>, rest: string)
    requires all == [x] + vs && vs != []
    requires ScanInt(s) == Some((x, ";" + t)) && ScanInts(t, |vs|) == Some((vs, rest))
    ensures ScanInts(s, |all|) == Some((all, rest))
  {
    ScanLiteralFirst(';', t);
  }

  lemma Regroup(a: string, b: string, rest: string)
    ensures (a + ";" + b) + rest == a + (";" + (b + rest))
  {
  }

  lemma ScanFirst(x: int, s: string, t: string)
    requires s == PrintInt(x) + (";" + t)
    ensures ScanInt(s) == Some((x, ";" + t))
  {
    ScanIntPrinted(x, ";" + t);
  }

  lemma PrintIntsSplit(v: seq<int>, s: string, t: string, rest: string)
    requires |v| >= 2 && s == PrintInts(v) + rest && t == PrintInts(v[1..]) + rest
    ensures s == PrintInt(v[0]) + (";" + t)
  {
    Regroup(PrintInt(v[0]), PrintInts(v[1..]), rest);
  }

  lemma ScanOne(x: int, s: string, rest: string)
    requires NoDigitFirst(rest) && s == PrintInt(x) + rest
    ensures ScanInts(s, 1) == Some(([x], rest))
  {
    ScanIntPrinted(x, rest);
  }

  lemma {:induction false} IntsScanned(v: seq<int>, s: string, rest: string)
    requires v != [] && NoDigitFirst(rest) && s == PrintInts(v) + rest
    ensures ScanInts(s, |v|) == Some((v, rest))
    decreases |v|
  {
    if |v| == 1 {
      assert [v[0]] == v;
      ScanOne(v[0], s, rest);
    } else {
      var t := PrintInts(v[1..]) + rest;
      IntsScanned(v[1..], t, rest);
      assert ScanInt(s) == Some((v[0], ";" + t)) by {
        PrintIntsSplit(v, s, t, rest);
        ScanFirst(v[0], s, t);
      }
      ScanIntsStep(s, t, v[0], v[1..], v, rest);
    }
  }

  /** Semicolon separated integers of any number round trip, whatever follows that is no digit. */
  lemma IntsRoundTrip(v: seq<int>, rest: string)
    requires v != [] && NoDigitFirst(rest)
    ensures ScanInts(PrintInts(v) + rest, |v|) == Some((v, rest))
  {
    IntsScanned(v, PrintInts(v) + rest, rest);
  }

  lemma {:induction false} PrintedNatHasNoSpace(n: nat)
    ensures forall i | 0 <= i < |PrintNat(n)| :: NotSpace(PrintNat(n)[i])
  {
    forall i | 0 <= i < |PrintNat(n)| ensures NotSpace(PrintNat(n)[i]) {
      assert IsDigit(PrintNat(n)[i]);
    }
  }

  lemma {:induction false} PrintedIntsHaveNoSpace(v: seq<int>)
    ensures forall i | 0 <= i < |PrintInts(v)| :: NotSpace(PrintInts(v)[i])
    ensures v != [] ==> PrintInts(v) != []
  {
    if v != [] {
      PrintedNatHasNoSpace(if v[0] < 0 then -v[0] else v[0]);
      if |v| > 1 { PrintedIntsHaveNoSpace(v[1..]); }
    }
  }

  // ----- the payloads of the game -----

  /** The shot a server reads from an id 6 request: `%d;%d`. */
  function ShotPayload(infos: string): Option<(int, int)> {
    match ScanInts(infos, 2)
    case Some((v, _)) => if |v| == 2 then Some((v[0], v[1])) else None
    case None => None
  }

  /** The ship a server reads from an id 3 request: `%d;%d;%c`. */
  function ShipPayload(infos: string): Option<(int, int, char)> {
    match ScanInts(infos, 2)
    case None => None
    case Some((v, rest)) =>
      if |v| == 2 && |rest| >= 2 && rest[0] == ';' then Some((v[0], v[1], rest[1])) else None
  }

  /** The parameters a client reads from an id 4 request: `%d;%d;%d;%d`. */
  function ParametersPayload(infos: string): Option<seq<int>> {
    match ScanInts(infos, 4) { case Some((v, _)) => Some(v) case None => None }
  }

  function ShotRequest(x: int, y: int): Req { Req(6, "coup", PrintInts([x, y])) }

  function ShipRequest(x: int, y: int, d: char): Req { Req(3, "boat", PrintInts([x, y]) + ";" + [d]) }

  function ParametersRequest(v: seq<int>): Req { Req(4, "infos", PrintInts(v)) }

  lemma PrintNatLength(n: nat)
    requires n < 100
    ensures |PrintNat(n)| <= 2
  {
  }

  /** A cursor position of a board of at most 50 fits the client's ten-byte payload buffer, and
      the server reads back the cell aimed at. */
  lemma ShotReachesServer(x: int, y: int, prior: Req)
    requires 0 <= x < 50 && 0 <= y < 50
    ensures |ShotRequest(x, y).infos| <= 9
    ensures var got := Unserial(Serial(ShotRequest(x, y)), SERVER_SCAN, prior);
            got.id == 6 && got.nom == "coup" && ShotPayload(got.infos) == Some((x, y))
  {
    var r := ShotRequest(x, y);
    TwoShortInts(x, y);
    PlainRoundTrips(r, SERVER_SCAN, prior);
    IntsRoundTrip([x, y], []);
    assert r.infos + [] == r.infos;
  }

  lemma TwoShortInts(x: int, y: int)
    requires 0 <= x < 100 && 0 <= y < 100
    ensures 0 < |PrintInts([x, y])| <= 5
    ensures forall i | 0 <= i < |PrintInts([x, y])| :: NotSpace(PrintInts([x, y])[i])
  {
    PrintNatLength(x);
    PrintNatLength(y);
    assert [x, y][1..] == [y];
    PrintedIntsHaveNoSpace([x, y]);
  }

  lemma ShipPayloadPrinted(x: int, y: int, d: char)
    ensures ShipPayload(PrintInts([x, y]) + (";" + [d])) == Some((x, y, d))
  {
    IntsRoundTrip([x, y], ";" + [d]);
  }

  lemma ShipReachesServer(x: int, y: int, d: char, prior: Req)
    requires 0 <= x < 50 && 0 <= y < 50 && NotSpace(d)
    ensures |ShipRequest(x, y, d).infos| <= 9
    ensures var got := Unserial(Serial(ShipRequest(x, y, d)), SERVER_SCAN, prior);
            got.id == 3 && ShipPayload(got.infos) == Some((x, y, d))
  {
    var r := ShipRequest(x, y, d);
    var v := PrintInts([x, y]);
    assert r.infos == v + (";" + [d]);
    TwoShortInts(x, y);
    forall i | 0 <= i < |r.infos| ensures NotSpace(r.infos[i]) {
      if i < |v| { assert r.infos[i] == v[i]; }
    }
    assert Unserial(Serial(r), SERVER_SCAN, prior) == r by { PlainRoundTrips(r, SERVER_SCAN, prior); }
    ShipPayloadPrinted(x, y, d);
  }

  lemma Joined(a: int, b: int, rest: seq<int>)
    ensures PrintInts([a]) == PrintInt(a) && PrintInts([a, b] + rest) == PrintInt(a) + ";" + PrintInts([b] + rest)
  {
    assert ([a, b] + rest)[1..] == [b] + rest;
  }

  lemma PrintedPair(x: int, y: int)
    ensures PrintInts([x, y]) == PrintInt(x) + ";" + PrintInt(y)
  {
    Joined(x, y, []);
    assert [x, y] + [] == [x, y] && [y] + [] == [y];
    Joined(y, y, []);
  }

  /** The shot as it stands on the wire. */
  lemma ShotOnTheWire(x: int, y: int)
    ensures Serial(ShotRequest(x, y)) == "6;coup;" + (PrintInt(x) + ";" + PrintInt(y))
  {
    PrintedPair(x, y);
    assert PrintInt(6) == "6";
  }

  /** The ship as it stands on the wire. */
  lemma ShipOnTheWire(x: int, y: int, d: char)
    ensures Serial(ShipRequest(x, y, d)) == "3;boat;" + (PrintInt(x) + ";" + PrintInt(y) + ";" + [d])
  {
    PrintedPair(x, y);
    assert PrintInt(3) == "3";
  }

  lemma ParametersReachClient(v: seq<int>, prior: Req)
    requires |v| == 4 && |PrintInts(v)| <= CLIENT_SCAN
    ensures var got := Unserial(Serial(ParametersRequest(v)), CLIENT_SCAN, prior);
            got.id == 4 && ParametersPayload(got.infos) == Some(v)
  {
    var r := ParametersRequest(v);
    PrintedIntsHaveNoSpace(v);
    PlainRoundTrips(r, CLIENT_SCAN, prior);
    IntsRoundTrip(v, []);
    assert r.infos + [] == r.infos;
  }
}
