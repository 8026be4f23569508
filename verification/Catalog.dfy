/** The order of versions, and the choice of a model catalog for one. */
module Catalog {
  import opened Options
  import opened DecimalKeys

  /** A version; without a prerelease the list of its identifiers is empty. */
  datatype Version = Version(major: nat, minor: nat, patch: nat, prerelease: seq<string>)

  /** What `Number` makes of a string of digits. */
  datatype Number = Finite(value: nat) | Infinite

  /** What the host does with identifiers: it reads numbers as doubles, and compares other strings by its locale. */
  datatype Host = Host(number: string -> Number, locale: (string, string) -> int)

  /** A difference of numbers, but for its rounding, which keeps the sign. */
  datatype Difference = By(n: int) | Infinitely(above: bool) | NaN {
    /** `> 0` */
    predicate Above() {
      match this case By(n) => n > 0 case Infinitely(above) => above case NaN => false
    }

    /** `< 0` */
    predicate Below() {
      match this case By(n) => n < 0 case Infinitely(above) => !above case NaN => false
    }

    /** `=== 0` */
    predicate Same() {
      this == By(0)
    }

    /** `<= 0` */
    predicate NotAbove() {
      Below() || Same()
    }
  }

  function Minus(l: Number, r: Number): Difference {
    if l.Finite? && r.Finite? then By(l.value - r.value)
    else if l.Finite? then Infinitely(false)
    else if r.Finite? then Infinitely(true)
    else NaN
  }

  predicate IsNumeric(part: string) {
    part != "" && forall i :: 0 <= i < |part| ==> '0' <= part[i] <= '9'
  }

  /** Two different identifiers. */
  function ComparePart(host: Host, l: string, r: string): Difference {
    if IsNumeric(l) && IsNumeric(r) then Minus(host.number(l), host.number(r))
    else if IsNumeric(l) then By(-1)
    else if IsNumeric(r) then By(1)
    else By(host.locale(l, r))
  }

  function ComparePrerelease(host: Host, l: seq<string>, r: seq<string>): Difference
    decreases |l|
  {
    if l == [] && r == [] then By(0)
    else if l == [] then By(-1)
    else if r == [] then By(1)
    else if l[0] == r[0] then ComparePrerelease(host, l[1..], r[1..])
    else ComparePart(host, l[0], r[0])
  }

  function Compare(host: Host, l: Version, r: Version): Difference {
    if l.major != r.major then By(l.major - r.major)
    else if l.minor != r.minor then By(l.minor - r.minor)
    else if l.patch != r.patch then By(l.patch - r.patch)
    else if l.prerelease == r.prerelease then By(0)
    else if l.prerelease == [] then By(1)
    else if r.prerelease == [] then By(-1)
    else ComparePrerelease(host, l.prerelease, r.prerelease)
  }

  // ---- A total order ----

  /** The strings that are not numbers are in a total order. */
  ghost predicate Ordered(host: Host) {
    && (forall a, b :: host.locale(a, b) == 0 <==> a == b)
    && (forall a, b :: host.locale(a, b) < 0 <==> host.locale(b, a) > 0)
    && (forall a, b, c :: host.locale(a, b) < 0 && host.locale(b, c) < 0 ==> host.locale(a, c) < 0)
  }

  /** The last number up to which doubles tell all numbers apart. */
  const EXACT := 9_007_199_254_740_992

  ghost predicate ReadsExactly(host: Host) {
    forall part: Digits :: IsNumeric(part) && Parse(part) <= EXACT ==> host.number(part) == Finite(Parse(part))
  }

  /** A number without leading zeros, or not a number. */
  predicate CanonicalPart(part: string) {
    IsNumeric(part) ==> part == "0" || part[0] != '0'
  }

  lemma DecimalMore(n: nat, d: nat)
    requires n > 0 && d < 10
    ensures Decimal(10 * n + d) == Decimal(n) + [Digit(d)]
  {
    assert (10 * n + d) / 10 == n && (10 * n + d) % 10 == d;
  }

  lemma {:induction false} CanonicalIsDecimal(part: Digits) returns (n: nat)
    requires IsNumeric(part) && CanonicalPart(part)
    ensures Parse(part) == n && Decimal(n) == part && (part != "0" ==> n > 0)
    decreases |part|
  {
    if |part| == 1 {
      n := OneDigit(part);
    } else {
      var init, last := part[..|part| - 1], part[|part| - 1];
      var m := CanonicalIsDecimal(init);
      ParseMore(part, |part| - 1);
      LastDigit(init, last, m);
      n := 10 * m + ValueOf(last);
      assert part == init + [last];
    }
  }

  lemma OneDigit(part: Digits) returns (n: nat)
    requires |part| == 1
    ensures Parse(part) == n && Decimal(n) == part && (part != "0" ==> n > 0)
  {
    ParseMore(part, 0);
    assert part[..0] == "" && part == [part[0]];
    n := ValueOf(part[0]);
  }

  lemma ParseMore(part: Digits, n: nat)
    requires |part| == n + 1
    ensures Parse(part) == 10 * Parse(part[..n]) + ValueOf(part[n])
  {}

  lemma LastDigit(init: Digits, last: char, m: nat)
    requires '0' <= last <= '9' && Decimal(m) == init && m > 0
    ensures Decimal(10 * m + ValueOf(last)) == init + [last]
  {
    DecimalMore(m, ValueOf(last));
  }

  /** Without leading zeros, different numbers are different. */
  lemma NumbersDiffer(l: Digits, r: Digits)
    requires IsNumeric(l) && IsNumeric(r) && CanonicalPart(l) && CanonicalPart(r) && l != r
    ensures Parse(l) != Parse(r)
  {
    var _ := CanonicalIsDecimal(l);
    var _ := CanonicalIsDecimal(r);
  }

  /** Among some identifiers, no two numbers are read as the same finite number. */
  ghost predicate Separated(host: Host, parts: iset<string>) {
    forall a, b {:trigger a in parts, b in parts} ::
      a in parts && b in parts && a != b && IsNumeric(a) && IsNumeric(b) && host.number(a).Finite? ==>
        host.number(a) != host.number(b)
  }

  /** No two are read as the same number, infinity included. */
  ghost predicate Distinguished(host: Host, parts: iset<string>) {
    forall a, b {:trigger a in parts, b in parts} ::
      a in parts && b in parts && a != b && IsNumeric(a) && IsNumeric(b) ==> host.number(a) != host.number(b)
  }

  predicate Over(v: seq<string>, parts: iset<string>) {
    forall i :: 0 <= i < |v| ==> v[i] in parts
  }

  predicate CanonicalUpTo(part: string, n: nat) {
    CanonicalPart(part) && (IsNumeric(part) ==> Parse(part) <= n)
  }

  lemma CanonicalDistinguished(host: Host)
    requires ReadsExactly(host)
    ensures Distinguished(host, iset part | CanonicalUpTo(part, EXACT))
  {
    forall a, b | CanonicalUpTo(a, EXACT) && CanonicalUpTo(b, EXACT) && a != b && IsNumeric(a) && IsNumeric(b)
      ensures host.number(a) != host.number(b)
    {
      NumbersDiffer(a, b);
    }
  }

  lemma PartsTransitive(host: Host, a: string, b: string, c: string)
    requires Ordered(host) && ComparePart(host, a, b).Below() && ComparePart(host, b, c).Below()
    ensures ComparePart(host, a, c).Below()
  {}

  lemma {:induction false} PrereleasesOrdered(host: Host, parts: iset<string>, l: seq<string>, r: seq<string>)
    requires Ordered(host) && Separated(host, parts) && Over(l, parts) && Over(r, parts)
    ensures ComparePrerelease(host, l, r).Same() <==> l == r
    ensures ComparePrerelease(host, l, r).Below() <==> ComparePrerelease(host, r, l).Above()
    decreases |l|
  {
    if l != [] && r != [] {
      assert l == [l[0]] + l[1..] && r == [r[0]] + r[1..];
      assert l[0] in parts && r[0] in parts;
      if l[0] == r[0] {
        PrereleasesOrdered(host, parts, l[1..], r[1..]);
      }
    }
  }

  lemma {:induction false} PrereleasesTransitive(host: Host, a: seq<string>, b: seq<string>, c: seq<string>)
    requires Ordered(host) && ComparePrerelease(host, a, b).Below() && ComparePrerelease(host, b, c).Below()
    ensures ComparePrerelease(host, a, c).Below()
    decreases |a|
  {
    if a != [] && b != [] && c != [] {
      if a[0] == b[0] && b[0] == c[0] {
        PrereleasesTransitive(host, a[1..], b[1..], c[1..]);
      } else if a[0] != b[0] && b[0] != c[0] {
        PartsTransitive(host, a[0], b[0], c[0]);
      }
    }
  }

  lemma {:induction false} PrereleasesTotal(host: Host, parts: iset<string>, l: seq<string>, r: seq<string>)
    requires Ordered(host) && Distinguished(host, parts) && Over(l, parts) && Over(r, parts)
    ensures !ComparePrerelease(host, l, r).NaN?
    decreases |l|
  {
    if l != [] && r != [] {
      assert l[0] in parts && r[0] in parts;
      if l[0] == r[0] {
        PrereleasesTotal(host, parts, l[1..], r[1..]);
      }
    }
  }

  /** Equal only when the same, and the reverse when turned round. */
  lemma CompareOrdered(host: Host, parts: iset<string>, l: Version, r: Version)
    requires Ordered(host) && Separated(host, parts) && Over(l.prerelease, parts) && Over(r.prerelease, parts)
    ensures Compare(host, l, r).Same() <==> l == r
    ensures Compare(host, l, r).Below() <==> Compare(host, r, l).Above()
  {
    PrereleasesOrdered(host, parts, l.prerelease, r.prerelease);
  }

  lemma CompareTransitive(host: Host, parts: iset<string>, a: Version, b: Version, c: Version)
    requires Ordered(host) && Separated(host, parts)
    requires Over(a.prerelease, parts) && Over(b.prerelease, parts) && Over(c.prerelease, parts)
    requires Compare(host, a, b).NotAbove() && Compare(host, b, c).NotAbove()
    ensures Compare(host, a, c).NotAbove()
  {
    CompareOrdered(host, parts, a, b);
    CompareOrdered(host, parts, b, c);
    if Compare(host, a, b).Below() && Compare(host, b, c).Below() && a.prerelease != [] && b.prerelease != [] && c.prerelease != []
       && ComparePrerelease(host, a.prerelease, b.prerelease).Below() && ComparePrerelease(host, b.prerelease, c.prerelease).Below()
    {
      PrereleasesTransitive(host, a.prerelease, b.prerelease, c.prerelease);
    }
  }

  /** Of two versions one is not above the other. */
  lemma CompareTotal(host: Host, parts: iset<string>, l: Version, r: Version)
    requires Ordered(host) && Distinguished(host, parts) && Over(l.prerelease, parts) && Over(r.prerelease, parts)
    ensures Compare(host, l, r).NotAbove() || Compare(host, r, l).NotAbove()
  {
    CompareOrdered(host, parts, l, r);
    CompareOrdered(host, parts, r, l);
    PrereleasesTotal(host, parts, l.prerelease, r.prerelease);
  }

  /** Not above is transitive on the versions over some identifiers. */
  ghost predicate TransitiveOver(host: Host, parts: iset<string>) {
    forall a: Version, b: Version, c: Version {:trigger Compare(host, a, b), Compare(host, b, c)} ::
      (Over(a.prerelease, parts) && Over(b.prerelease, parts) && Over(c.prerelease, parts)
       && Compare(host, a, b).NotAbove() && Compare(host, b, c).NotAbove())
      ==> Compare(host, a, c).NotAbove()
  }

  /** Only a version itself is equal to it, and comparing turned round is the reverse. */
  ghost predicate AntisymmetricOver(host: Host, parts: iset<string>) {
    forall a: Version, b: Version {:trigger Compare(host, a, b)} ::
      Over(a.prerelease, parts) && Over(b.prerelease, parts) ==>
        (Compare(host, a, b).Same() <==> a == b) && (Compare(host, a, b).Below() <==> Compare(host, b, a).Above())
  }

  /** Any two versions compare one way or the other. */
  ghost predicate TotalOver(host: Host, parts: iset<string>) {
    forall a: Version, b: Version {:trigger Compare(host, a, b)} ::
      Over(a.prerelease, parts) && Over(b.prerelease, parts) ==> Compare(host, a, b).NotAbove() || Compare(host, b, a).NotAbove()
  }

  /** Of two identifiers read as one number, a: 1.0.0-a.a is not above 1.0.0-b, nor that above 1.0.0-a, but 1.0.0-a.a is
      above 1.0.0-a. */
  lemma ReadAlikeBreaks(host: Host, a: string, b: string)
    requires a != b && IsNumeric(a) && IsNumeric(b) && host.number(a).Finite? && host.number(a) == host.number(b)
    ensures var twice, other, once := Version(1, 0, 0, [a, a]), Version(1, 0, 0, [b]), Version(1, 0, 0, [a]);
            Compare(host, twice, other).Same() && Compare(host, other, once).Same() && Compare(host, twice, once).Above()
  {
    assert [a, a][0] == a && [b][0] == b && [a][0] == a;
    assert [a, a][1..] == [a] && [a][1..] == [];
    assert |[a, a]| != |[a]|;
    assert ComparePrerelease(host, [a], []) == By(1);
  }

  /** So two spellings of a number break it. */
  lemma SpellingsBreak(host: Host, a: Digits, b: Digits)
    requires ReadsExactly(host) && IsNumeric(a) && IsNumeric(b) && a != b && Parse(a) == Parse(b) <= EXACT
    ensures !TransitiveOver(host, iset{a, b})
  {
    ReadAlikeBreaks(host, a, b);
    var twice, other, once := Version(1, 0, 0, [a, a]), Version(1, 0, 0, [b]), Version(1, 0, 0, [a]);
    assert Compare(host, twice, other).NotAbove() && Compare(host, other, once).NotAbove();
  }

  lemma {:induction false} DecimalIsCanonical(n: nat)
    ensures IsNumeric(Decimal(n)) && CanonicalPart(Decimal(n)) && (n > 0 ==> Decimal(n)[0] != '0')
  {
    if n >= 10 {
      DecimalIsCanonical(n / 10);
    }
  }

  /** And so do two numbers without leading zeros that doubles do not tell apart, as 2^53 and 2^53 + 1. */
  lemma RoundingBreaks(host: Host, m: nat, n: nat)
    requires m != n && host.number(Decimal(m)).Finite? && host.number(Decimal(m)) == host.number(Decimal(n))
    ensures var parts := iset{Decimal(m), Decimal(n)};
            (forall part :: part in parts ==> IsNumeric(part) && CanonicalPart(part)) && !TransitiveOver(host, parts)
  {
    var a, b := Decimal(m), Decimal(n);
    DecimalIsCanonical(m);
    DecimalIsCanonical(n);
    ParseDecimal(m);
    ParseDecimal(n);
    ReadAlikeBreaks(host, a, b);
    var twice, other, once := Version(1, 0, 0, [a, a]), Version(1, 0, 0, [b]), Version(1, 0, 0, [a]);
    assert Compare(host, twice, other).NotAbove() && Compare(host, other, once).NotAbove();
  }

  /** The comparison is transitive on the versions over some identifiers exactly when no two numbers among them are read as
      the same finite number. */
  lemma TransitiveIff(host: Host, parts: iset<string>)
    requires Ordered(host)
    ensures TransitiveOver(host, parts) <==> Separated(host, parts)
  {
    if Separated(host, parts) {
      forall a: Version, b: Version, c: Version | Over(a.prerelease, parts) && Over(b.prerelease, parts) && Over(c.prerelease, parts)
                       && Compare(host, a, b).NotAbove() && Compare(host, b, c).NotAbove()
        ensures Compare(host, a, c).NotAbove()
      {
        CompareTransitive(host, parts, a, b, c);
      }
    } else {
      var a, b :| a in parts && b in parts && a != b && IsNumeric(a) && IsNumeric(b) && host.number(a).Finite?
                  && host.number(a) == host.number(b);
      ReadAlikeBreaks(host, a, b);
      var twice, other, once := Version(1, 0, 0, [a, a]), Version(1, 0, 0, [b]), Version(1, 0, 0, [a]);
      assert Over(twice.prerelease, parts) && Over(other.prerelease, parts) && Over(once.prerelease, parts);
      assert Compare(host, twice, other).NotAbove() && Compare(host, other, once).NotAbove();
    }
  }

  /** So it is a partial order exactly then, and a total one exactly when at most one number is read as infinity besides. */
  lemma TotalOrderIff(host: Host, parts: iset<string>)
    requires Ordered(host)
    ensures Separated(host, parts) <==> AntisymmetricOver(host, parts) && TransitiveOver(host, parts)
    ensures Distinguished(host, parts) <==>
            AntisymmetricOver(host, parts) && TransitiveOver(host, parts) && TotalOver(host, parts)
  {
    TransitiveIff(host, parts);
    if Separated(host, parts) {
      forall a: Version, b: Version | Over(a.prerelease, parts) && Over(b.prerelease, parts)
        ensures (Compare(host, a, b).Same() <==> a == b) && (Compare(host, a, b).Below() <==> Compare(host, b, a).Above())
      {
        CompareOrdered(host, parts, a, b);
      }
      if Distinguished(host, parts) {
        forall a: Version, b: Version | Over(a.prerelease, parts) && Over(b.prerelease, parts)
          ensures Compare(host, a, b).NotAbove() || Compare(host, b, a).NotAbove()
        {
          CompareTotal(host, parts, a, b);
        }
      } else {
        InfinitiesDoNotCompare(host, parts);
      }
    }
  }

  lemma InfinitiesDoNotCompare(host: Host, parts: iset<string>)
    requires Separated(host, parts) && !Distinguished(host, parts)
    ensures !TotalOver(host, parts)
  {
    var a, b :| a in parts && b in parts && a != b && IsNumeric(a) && IsNumeric(b) && host.number(a) == host.number(b);
    var l, r := Version(1, 0, 0, [a]), Version(1, 0, 0, [b]);
    assert [a][0] == a && [b][0] == b && Over(l.prerelease, parts) && Over(r.prerelease, parts);
    assert Compare(host, l, r) == NaN && Compare(host, r, l) == NaN;
  }

  /** Leading zeros break it: 1.0.0-01.a is equal to both 1.0.0-1.a and 1.0.0-1.b, which are not equal to each other. */
  lemma LeadingZerosBreak(host: Host)
    requires Ordered(host) && ReadsExactly(host)
    ensures var x, y, z := Version(1, 0, 0, ["1", "a"]), Version(1, 0, 0, ["01", "a"]), Version(1, 0, 0, ["1", "b"]);
            Compare(host, x, y).Same() && Compare(host, y, z).Same() && !Compare(host, x, z).Same()
  {
    assert "1"[..0] == "" && "01"[..1] == "0" && "0"[..0] == "";
    assert Parse("1") == 1 && Parse("0") == 0 && Parse("01") == 1;
    assert ["1", "a"][1..] == ["a"] && ["1", "b"][1..] == ["b"];
    assert "a"[0] > '9' && "b"[0] > '9';
  }

  // ---- Selection ----

  datatype Entry = Entry(minimum: Version, revision: string)

  /** The choice after entry `n`, of the one before. */
  function Choose(host: Host, catalogs: seq<Entry>, n: nat, requested: Version, before: Option<nat>): Option<nat>
    requires n < |catalogs| && before.Or(0) < |catalogs|
  {
    var minimum := catalogs[n].minimum;
    if Compare(host, minimum, requested).NotAbove()
       && (before.None? || Compare(host, minimum, catalogs[before.value].minimum).Above()) then Some(n)
    else before
  }

  /** The entry chosen among the first `n`. */
  function Selected(host: Host, catalogs: seq<Entry>, n: nat, requested: Version): (r: Option<nat>)
    requires n <= |catalogs|
    ensures r.Some? ==> r.value < n
  {
    if n == 0 then None else Choose(host, catalogs, n - 1, requested, Selected(host, catalogs, n - 1, requested))
  }

  /** What a client asks for: nothing in particular, something unreadable, or a version. */
  datatype Request = Unversioned | Unreadable | For(version: Version)

  method SelectModelCatalog(host: Host, catalogs: seq<Entry>, defaultRevision: string, request: Request)
    returns (selected: Option<Entry>)
    ensures match request
            case Unversioned =>
              if selected.None? then forall e :: e in catalogs ==> e.revision != defaultRevision
              else selected.value in catalogs && selected.value.revision == defaultRevision
            case Unreadable => selected == None
            case For(version) =>
              selected == match Selected(host, catalogs, |catalogs|, version)
                          case None => None
                          case Some(i) => Some(catalogs[i])
  {
    selected := None;
    match request {
      case Unversioned =>
        for i := 0 to |catalogs|
          invariant forall k :: 0 <= k < i ==> catalogs[k].revision != defaultRevision
        {
          if catalogs[i].revision == defaultRevision {
            return Some(catalogs[i]);
          }
        }
      case Unreadable =>
      case For(requested) =>
        var selectedVersion: Option<Version> := None;
        for i := 0 to |catalogs|
          invariant selected == match Selected(host, catalogs, i, requested) case None => None case Some(k) => Some(catalogs[k])
          invariant selectedVersion == if selected.Some? then Some(selected.value.minimum) else None
        {
          var minimum := catalogs[i].minimum;
          if Compare(host, minimum, requested).NotAbove()
             && (selectedVersion == None || Compare(host, minimum, selectedVersion.value).Above()) {
            selected := Some(catalogs[i]);
            selectedVersion := Some(minimum);
          }
        }
    }
  }

  predicate Suits(host: Host, e: Entry, requested: Version) {
    Compare(host, e.minimum, requested).NotAbove()
  }

  ghost predicate AllOver(catalogs: seq<Entry>, parts: iset<string>) {
    forall i :: 0 <= i < |catalogs| ==> Over(catalogs[i].minimum.prerelease, parts)
  }

  /** Entry `i` is the first of the greatest minimum among the suitable ones of the first `n`. */
  predicate Greatest(host: Host, catalogs: seq<Entry>, n: nat, requested: Version, i: nat)
    requires i < n <= |catalogs|
  {
    && Suits(host, catalogs[i], requested)
    && (forall j :: 0 <= j < n && Suits(host, catalogs[j], requested) ==>
          Compare(host, catalogs[j].minimum, catalogs[i].minimum).NotAbove())
    && (forall j :: 0 <= j < i && Suits(host, catalogs[j], requested) ==>
          Compare(host, catalogs[j].minimum, catalogs[i].minimum).Below())
  }

  /** One entry more: it takes over exactly when it suits and is above the best one so far. */
  lemma GreatestNext(host: Host, parts: iset<string>, catalogs: seq<Entry>, n: nat, requested: Version, i: nat)
    requires Ordered(host) && Distinguished(host, parts) && AllOver(catalogs, parts)
    requires i < n < |catalogs| && Greatest(host, catalogs, n, requested, i)
    ensures var takes := Suits(host, catalogs[n], requested) && Compare(host, catalogs[n].minimum, catalogs[i].minimum).Above();
            Greatest(host, catalogs, n + 1, requested, if takes then n else i)
  {
    var last, best := catalogs[n].minimum, catalogs[i].minimum;
    AboveOrNot(host, parts, last, best);
    if Suits(host, catalogs[n], requested) && Compare(host, last, best).Above() {
      CompareOrdered(host, parts, last, last);
      forall j | 0 <= j < n && Suits(host, catalogs[j], requested)
        ensures Compare(host, catalogs[j].minimum, last).Below()
      {
        BelowBelow(host, parts, catalogs[j].minimum, best, last);
      }
    }
  }

  /** An entry that suits is the greatest where none before it does. */
  lemma FirstSuits(host: Host, catalogs: seq<Entry>, n: nat, requested: Version)
    requires n < |catalogs| && (forall j :: 0 <= j < n ==> !Suits(host, catalogs[j], requested))
    ensures Suits(host, catalogs[n], requested) ==> Greatest(host, catalogs, n + 1, requested, n)
  {
    assert Compare(host, catalogs[n].minimum, catalogs[n].minimum) == By(0);
  }

  predicate Chosen(host: Host, catalogs: seq<Entry>, n: nat, requested: Version, choice: Option<nat>)
    requires n <= |catalogs|
  {
    match choice
    case None => forall j :: 0 <= j < n ==> !Suits(host, catalogs[j], requested)
    case Some(i) => i < n && Greatest(host, catalogs, n, requested, i)
  }

  lemma ChoosesGreatest(host: Host, parts: iset<string>, catalogs: seq<Entry>, n: nat, requested: Version, before: Option<nat>)
    requires Ordered(host) && Distinguished(host, parts) && AllOver(catalogs, parts)
    requires n < |catalogs| && Chosen(host, catalogs, n, requested, before)
    ensures Chosen(host, catalogs, n + 1, requested, Choose(host, catalogs, n, requested, before))
  {
    match before
    case None => FirstSuits(host, catalogs, n, requested);
    case Some(i) => GreatestNext(host, parts, catalogs, n, requested, i);
  }

  /** The choice is the first entry of the greatest minimum version that does not exceed the requested one; there is none
      only when no entry suits. */
  lemma {:induction false} SelectsGreatest(host: Host, parts: iset<string>, catalogs: seq<Entry>, n: nat, requested: Version)
    requires Ordered(host) && Distinguished(host, parts) && AllOver(catalogs, parts) && n <= |catalogs|
    ensures Chosen(host, catalogs, n, requested, Selected(host, catalogs, n, requested))
  {
    if n > 0 {
      SelectsGreatest(host, parts, catalogs, n - 1, requested);
      ChoosesGreatest(host, parts, catalogs, n - 1, requested, Selected(host, catalogs, n - 1, requested));
    }
  }

  lemma AboveOrNot(host: Host, parts: iset<string>, l: Version, r: Version)
    requires Ordered(host) && Distinguished(host, parts) && Over(l.prerelease, parts) && Over(r.prerelease, parts)
    ensures Compare(host, l, r).Above() <==> !Compare(host, l, r).NotAbove()
  {
    CompareOrdered(host, parts, l, r);
    CompareOrdered(host, parts, r, l);
    CompareTotal(host, parts, l, r);
  }

  lemma BelowBelow(host: Host, parts: iset<string>, a: Version, b: Version, c: Version)
    requires Ordered(host) && Distinguished(host, parts)
    requires Over(a.prerelease, parts) && Over(b.prerelease, parts) && Over(c.prerelease, parts)
    requires Compare(host, a, b).NotAbove() && Compare(host, c, b).Above()
    ensures Compare(host, a, c).Below()
  {
    CompareOrdered(host, parts, b, c);
    CompareTransitive(host, parts, a, b, c);
    CompareOrdered(host, parts, a, c);
    if a == c {
      CompareOrdered(host, parts, a, b);
    }
  }

  /** A newer client never gets a catalog for older versions than an older client does. */
  lemma SelectsMonotonically(host: Host, parts: iset<string>, catalogs: seq<Entry>, older: Version, newer: Version)
    requires Ordered(host) && Distinguished(host, parts) && AllOver(catalogs, parts)
    requires Over(older.prerelease, parts) && Over(newer.prerelease, parts) && Compare(host, older, newer).NotAbove()
    ensures var a, b := Selected(host, catalogs, |catalogs|, older), Selected(host, catalogs, |catalogs|, newer);
            a.Some? ==> b.Some? && Compare(host, catalogs[a.value].minimum, catalogs[b.value].minimum).NotAbove()
  {
    SelectsGreatest(host, parts, catalogs, |catalogs|, older);
    SelectsGreatest(host, parts, catalogs, |catalogs|, newer);
    var a := Selected(host, catalogs, |catalogs|, older);
    if a.Some? {
      CompareTransitive(host, parts, catalogs[a.value].minimum, older, newer);
      assert Suits(host, catalogs[a.value], newer);
    }
  }
}
