/** The numbers that IPv4 and IPv6 address texts stand for. */
module AddressText {
  import opened Numerals
  import opened Options
  import opened Text

  // ---------------------------------------------------------------- IPv4

  function ReadAll(parts: seq<string>, base: nat): (r: seq<nat>)
    ensures |r| == |parts| && forall i | 0 <= i < |r| :: r[i] == Read(parts[i], base)
  {
    seq(|parts|, i requires 0 <= i < |parts| => Read(parts[i], base))
  }

  function Ipv4ToNumber(ip: string): nat { Fold(256, ReadAll(Split(ip, '.'), 10)) }

  predicate AreOctets(octets: seq<nat>) { |octets| == 4 && forall i | 0 <= i < 4 :: octets[i] < 256 }

  function Decimals(octets: seq<nat>): (r: seq<string>)
    ensures |r| == |octets| && forall i | 0 <= i < |r| :: r[i] == Numeral(octets[i], 10)
  {
    seq(|octets|, i requires 0 <= i < |octets| => Numeral(octets[i], 10))
  }

  function DottedText(octets: seq<nat>): string { Join(Decimals(octets), '.') }

  function OctetsOf(v: nat): (r: seq<nat>)
    requires v < 0x1_0000_0000
    ensures AreOctets(r)
  {
    [v / 256 / 256 / 256, v / 256 / 256 % 256, v / 256 % 256, v % 256]
  }

  function DottedQuad(v: nat): string
    requires v < 0x1_0000_0000
  {
    DottedText(OctetsOf(v))
  }

  lemma NumeralHasNo(s: string, base: nat, c: char)
    requires IsNumeral(s, base) && base <= 16 && DigitValue(c) == 16
    ensures c !in s
  {}

  lemma DottedTextReads(octets: seq<nat>)
    requires octets != []
    ensures Split(DottedText(octets), '.') == Decimals(octets)
    ensures ReadAll(Split(DottedText(octets), '.'), 10) == octets
  {
    var parts := Decimals(octets);
    forall i | 0 <= i < |parts| ensures '.' !in parts[i] && Read(parts[i], 10) == octets[i] {
      NumeralReads(octets[i], 10);
      NumeralHasNo(parts[i], 10, '.');
    }
    SplitOfJoin(parts, '.');
  }

  lemma FoldFour(octets: seq<nat>)
    requires |octets| == 4
    ensures Fold(256, octets) == octets[0] * 0x100_0000 + octets[1] * 0x1_0000 + octets[2] * 256 + octets[3]
  {
    assert octets[..3][..2] == octets[..2] && octets[..2][..1] == octets[..1] && octets[..1][..0] == [];
    assert Fold(256, octets[..1]) == octets[0];
    assert Fold(256, octets[..2]) == octets[0] * 256 + octets[1];
    assert Fold(256, octets[..3]) == octets[0] * 0x1_0000 + octets[1] * 256 + octets[2];
  }

  lemma QuadValue(octets: seq<nat>)
    requires |octets| == 4
    ensures Ipv4ToNumber(DottedText(octets))
         == octets[0] * 0x100_0000 + octets[1] * 0x1_0000 + octets[2] * 256 + octets[3]
  {
    DottedTextReads(octets);
    FoldFour(octets);
    assert Ipv4ToNumber(DottedText(octets)) == Fold(256, octets);
  }

  /** Decoding undoes printing. */
  lemma DecodesDottedQuad(v: nat)
    requires v < 0x1_0000_0000
    ensures Ipv4ToNumber(DottedQuad(v)) == v
  {
    QuadValue(OctetsOf(v));
    hide Ipv4ToNumber, DottedText;
    DivMod(v, 256);
    DivMod(v / 256, 256);
    DivMod(v / 256 / 256, 256);
  }

  lemma DigitOut(q: nat, d: nat)
    requires d < 256
    ensures (q * 256 + d) / 256 == q && (q * 256 + d) % 256 == d
  {}

  /** And printing undoes decoding, so every address text has one value and every value one text. */
  lemma PrintsDecoded(octets: seq<nat>)
    requires AreOctets(octets)
    ensures Ipv4ToNumber(DottedText(octets)) < 0x1_0000_0000
    ensures DottedQuad(Ipv4ToNumber(DottedText(octets))) == DottedText(octets)
  {
    QuadValue(octets);
    var v := Ipv4ToNumber(DottedText(octets));
    hide Ipv4ToNumber, DottedText;
    var high := octets[0] * 256 + octets[1];
    DigitOut(octets[0], octets[1]);
    DigitOut(high, octets[2]);
    DigitOut(high * 256 + octets[2], octets[3]);
    assert v == (high * 256 + octets[2]) * 256 + octets[3];
    assert OctetsOf(v) == octets;
  }
  // ---------------------------------------------------------------- IPv6, step by step

  predicate AllDecimal(s: string) { s != "" && IsNumeral(s, 10) }

  /** The expression for a dotted quad of decimal numerals. */
  predicate IsDotted(s: string) {
    |Split(s, '.')| == 4 && forall i | 0 <= i < 4 :: AllDecimal(Split(s, '.')[i])
  }

  /** Where the leftmost dotted quad that reaches the end of the text begins. */
  function DottedStart(s: string): (r: Option<nat>)
    ensures r.Some? ==> r.value <= |s|
  {
    if IsDotted(s) then Some(0)
    else if s == "" then None
    else
      var i :- DottedStart(s[1..]);
      Some(i + 1)
  }

  /** A dotted quad at the end is rewritten as two groups. */
  function Normalized(ip: string): string {
    var start := DottedStart(ip);
    if start.None? then ip
    else
      var hex := PadStart(Numeral(Ipv4ToNumber(ip[start.value..]), 16), 8);
      ip[..start.value] + hex[..4] + ":" + hex[4..]
  }

  /** Where the first `::` begins. */
  function DoubleColon(s: string): (r: Option<nat>)
    ensures r.Some? ==> r.value + 2 <= |s|
  {
    if |s| < 2 then None
    else if s[..2] == "::" then Some(0)
    else
      var i :- DoubleColon(s[1..]);
      Some(i + 1)
  }

  function Filled(parts: seq<string>): seq<string> {
    if parts == [] then [] else (if parts[0] == "" then [] else [parts[0]]) + Filled(parts[1..])
  }

  /** The groups in a stretch of text. */
  function GroupsIn(s: string): seq<string> { Filled(Split(s, ':')) }

  function UpToDouble(s: string): string {
    var i := DoubleColon(s);
    if i.None? then s else s[..i.value]
  }

  function HeadParts(s: string): seq<string> { GroupsIn(UpToDouble(s)) }

  function TailParts(s: string): seq<string> {
    var i := DoubleColon(s);
    if i.None? then [] else GroupsIn(UpToDouble(s[i.value + 2..]))
  }

  function ZeroGroups(n: nat): (r: seq<string>)
    ensures |r| == n
  {
    seq(n, i => "0")
  }

  function Missing(head: seq<string>, tail: seq<string>): nat {
    if |head| + |tail| < 8 then 8 - |head| - |tail| else 0
  }

  function Ipv6Number(ip: string): nat {
    var s := Normalized(ip);
    var head, tail := HeadParts(s), TailParts(s);
    Fold(65536, ReadAll(head + ZeroGroups(Missing(head, tail)) + tail, 16))
  }

  // ---------------------------------------------------------------- the text forms of an IPv6 address

  function ZeroValues(n: nat): (r: seq<nat>)
    ensures |r| == n && forall i | 0 <= i < n :: r[i] == 0
  {
    seq(n, i => 0)
  }

  predicate IsGroup(g: string) { 1 <= |g| <= 4 && IsNumeral(g, 16) }

  predicate AreGroups(gs: seq<string>) { forall i | 0 <= i < |gs| :: IsGroup(gs[i]) }

  /**
   The text forms of section 2.2 of RFC 4291: groups of up to four hexadecimal digits, one run of zero
   groups perhaps written `::`, and the last two groups perhaps written as a dotted quad.
   */
  datatype V6Text = V6Text(head: seq<string>, elided: bool, tail: seq<string>, dotted: Option<seq<nat>>) {
    function Written(): nat { |head| + |tail| + if dotted.Some? then 2 else 0 }

    predicate Valid() {
      && AreGroups(head) && AreGroups(tail)
      && (dotted.Some? ==> AreOctets(dotted.value))
      && (if elided then Written() <= 7 else tail == [] && Written() == 8)
    }

    function Last(): seq<string> { if dotted.Some? then [DottedText(dotted.value)] else [] }

    function Print(): string {
      if elided then Join(head, ':') + "::" + Join(tail + Last(), ':') else Join(head + Last(), ':')
    }

    /** The eight groups that the text stands for. */
    function Groups(): (r: seq<nat>)
      requires Valid()
      ensures |r| == 8
    {
      ReadAll(head, 16) + ZeroValues(8 - Written()) + ReadAll(tail, 16)
      + if dotted.None? then []
        else [dotted.value[0] * 256 + dotted.value[1], dotted.value[2] * 256 + dotted.value[3]]
    }
  }

  // ---------------------------------------------------------------- the dotted tail

  lemma ColonIsNotDotted(s: string)
    requires ':' in s
    ensures !IsDotted(s)
  {
    var i := SplitKeeps(s, '.', ':');
    if IsDotted(s) { NumeralHasNo(Split(s, '.')[i], 10, ':'); }
  }

  lemma {:induction false} NoDotNoStart(s: string)
    requires '.' !in s
    ensures DottedStart(s) == None
  {
    SplitWord(s, '.');
    if s != "" { NoDotNoStart(s[1..]); }
  }

  lemma OctetsAreDotted(octets: seq<nat>)
    requires AreOctets(octets)
    ensures IsDotted(DottedText(octets))
  {
    DottedTextReads(octets);
    forall i | 0 <= i < 4 ensures AllDecimal(Decimals(octets)[i]) {
      NumeralReads(octets[i], 10);
    }
  }

  lemma {:induction false} DottedStartsThere(prefix: string, quad: string)
    requires IsDotted(quad) && (prefix != "" ==> prefix[|prefix| - 1] == ':')
    ensures DottedStart(prefix + quad) == Some(|prefix|)
  {
    if prefix == "" {
      assert prefix + quad == quad;
    } else {
      assert (prefix + quad)[|prefix| - 1] == ':';
      ColonIsNotDotted(prefix + quad);
      assert (prefix + quad)[1..] == prefix[1..] + quad;
      DottedStartsThere(prefix[1..], quad);
    }
  }

  /** The two groups that a dotted quad is rewritten to. */
  function Halves(octets: seq<nat>): seq<string> {
    var hex := PadStart(Numeral(Ipv4ToNumber(DottedText(octets)), 16), 8);
    [hex[..4], hex[4..]]
  }

  lemma HalvesRead(octets: seq<nat>)
    requires AreOctets(octets)
    ensures AreGroups(Halves(octets))
    ensures ReadAll(Halves(octets), 16) == [octets[0] * 256 + octets[1], octets[2] * 256 + octets[3]]
  {
    hide Read, Pow, Numeral, PadStart, Ipv4ToNumber, DottedText, IsNumeral;
    QuadValue(octets);
    var v := Ipv4ToNumber(DottedText(octets));
    HexHalves(v);
    var hex := PadStart(Numeral(v, 16), 8);
    Unique(Read(hex[..4], 16), Read(hex[4..], 16), octets[0] * 256 + octets[1], octets[2] * 256 + octets[3]);
  }

  lemma Unique(a: nat, b: nat, c: nat, d: nat)
    requires a * 65536 + b == c * 65536 + d && b < 65536 && d < 65536
    ensures a == c && b == d
  {}

  function Undotted(t: V6Text): V6Text {
    if t.dotted.None? then t
    else if t.elided then V6Text(t.head, true, t.tail + Halves(t.dotted.value), None)
    else V6Text(t.head + Halves(t.dotted.value), false, t.tail, None)
  }

  lemma ReadAllAppend(a: seq<string>, b: seq<string>, base: nat)
    ensures ReadAll(a + b, base) == ReadAll(a, base) + ReadAll(b, base)
  {}

  lemma Assemble(h: seq<nat>, z: seq<nat>, t: seq<nat>, v: seq<nat>)
    ensures h + z + (t + v) + [] == h + z + t + v
    ensures z == [] && t == [] ==> (h + v) + z + t + [] == h + z + t + v
  {}

  lemma UndottedIsValid(t: V6Text)
    requires t.Valid()
    ensures Undotted(t).Valid() && Undotted(t).Written() == t.Written()
  {
    if t.dotted.Some? {
      HalvesRead(t.dotted.value);
      hide Halves, IsGroup;
    }
  }

  lemma UndottedKeepsGroups(t: V6Text)
    requires t.Valid()
    ensures Undotted(t).Valid() && Undotted(t).Groups() == t.Groups()
  {
    UndottedIsValid(t);
    if t.dotted.Some? {
      hide ReadAll, Halves, IsGroup, AreGroups, ZeroValues;
      QuadBecomesGroups(t, Undotted(t));
    }
  }

  lemma QuadBecomesGroups(t: V6Text, u: V6Text)
    requires t.Valid() && t.dotted.Some? && u == Undotted(t) && u.Valid() && u.Written() == t.Written()
    ensures u.Groups() == t.Groups()
  {
    var two := Halves(t.dotted.value);
    HalvesRead(t.dotted.value);
    if t.elided {
      ReadAllAppend(t.tail, two, 16);
    } else {
      ReadAllAppend(t.head, two, 16);
    }
    assert u.head == if t.elided then t.head else t.head + two;
    assert u.tail == if t.elided then t.tail + two else t.tail;
    assert !t.elided ==> t.tail == [] && t.Written() == 8;
    hide Halves, Undotted;
    var h, z, l, v := ReadAll(t.head, 16), ZeroValues(8 - t.Written()), ReadAll(t.tail, 16), ReadAll(two, 16);
    assert !t.elided ==> z == [] && l == [];
    hide ReadAll, ZeroValues;
    Assemble(h, z, l, v);
    FlatGroups(t, h, z, l, v);
    FlatGroups(u, ReadAll(u.head, 16), z, ReadAll(u.tail, 16), []);
  }

  lemma FlatGroups(t: V6Text, h: seq<nat>, z: seq<nat>, l: seq<nat>, v: seq<nat>)
    requires t.Valid()
    requires h == ReadAll(t.head, 16) && z == ZeroValues(8 - t.Written()) && l == ReadAll(t.tail, 16)
    requires v == if t.dotted.None? then []
                  else [t.dotted.value[0] * 256 + t.dotted.value[1], t.dotted.value[2] * 256 + t.dotted.value[3]]
    ensures t.Groups() == h + z + l + v
  {}

  /** What stands in front of the dotted quad. */
  function Front(t: V6Text): string {
    var groups := if t.elided then t.tail else t.head;
    (if t.elided then Join(t.head, ':') + "::" else "") + if groups == [] then "" else Join(groups, ':') + ":"
  }

  lemma JoinOneOrTwo(groups: seq<string>, quad: string, two: seq<string>)
    requires |two| == 2
    ensures var front := if groups == [] then "" else Join(groups, ':') + ":";
            && Join(groups + [quad], ':') == front + quad
            && Join(groups + two, ':') == front + two[0] + ":" + two[1]
  {
    JoinAppend(groups, [quad], ':');
    JoinAppend(groups, two, ':');
    assert Join(two, ':') == two[0] + [':'] + Join(two[1..], ':') && two[1..] == [two[1]];
    assert Join([two[1]], ':') == two[1];
    hide Join;
    var front := if groups == [] then "" else Join(groups, ':') + ":";
    assert front + (two[0] + ":" + two[1]) == front + two[0] + ":" + two[1];
  }

  lemma Regroup(lead: string, front: string, quad: string, x: string, y: string)
    ensures lead + (front + quad) == (lead + front) + quad
    ensures lead + (front + x + ":" + y) == (lead + front) + x + ":" + y
  {}

  lemma PrintEndsWithQuad(t: V6Text)
    requires t.dotted.Some?
    ensures t.Print() == Front(t) + DottedText(t.dotted.value)
    ensures Undotted(t).Print() == Front(t) + Halves(t.dotted.value)[0] + ":" + Halves(t.dotted.value)[1]
  {
    var quad, two := DottedText(t.dotted.value), Halves(t.dotted.value);
    var groups := if t.elided then t.tail else t.head;
    assert |two| == 2 && t.Last() == [quad] && Undotted(t).Last() == [];
    hide Halves, DottedText, V6Text.Last;
    JoinOneOrTwo(groups, quad, two);
    hide Join;
    assert groups + two + [] == groups + two;
    var lead := if t.elided then Join(t.head, ':') + "::" else "";
    var front := if groups == [] then "" else Join(groups, ':') + ":";
    assert Front(t) == lead + front;
    hide Front;
    Regroup(lead, front, quad, two[0], two[1]);
    assert t.Print() == lead + (front + quad);
  }

  lemma NormalizedIsUndotted(t: V6Text)
    requires t.Valid()
    ensures Normalized(t.Print()) == Undotted(t).Print()
  {
    if t.dotted.Some? {
      PrintEndsWithQuad(t);
      OctetsAreDotted(t.dotted.value);
      var front, quad := Front(t), DottedText(t.dotted.value);
      DottedStartsThere(front, quad);
      hide DottedText, DottedStart, Front, Join;
      assert (front + quad)[..|front|] == front && (front + quad)[|front|..] == quad;
    } else {
      NoDotInText(t);
      NoDotNoStart(t.Print());
    }
  }

  lemma {:induction false} JoinHasNo(parts: seq<string>, sep: char, c: char)
    requires c != sep && forall i | 0 <= i < |parts| :: c !in parts[i]
    ensures c !in Join(parts, sep)
  {
    if |parts| > 1 { JoinHasNo(parts[1..], sep, c); }
  }

  lemma GroupsHaveNo(gs: seq<string>, c: char)
    requires AreGroups(gs) && DigitValue(c) == 16
    ensures forall i | 0 <= i < |gs| :: c !in gs[i]
  {}

  lemma NoDotInText(t: V6Text)
    requires t.Valid() && t.dotted.None?
    ensures '.' !in t.Print()
  {
    GroupsHaveNo(t.head, '.');
    GroupsHaveNo(t.tail, '.');
    JoinHasNo(t.head, ':', '.');
    JoinHasNo(t.tail, ':', '.');
    assert t.tail + [] == t.tail && t.head + [] == t.head;
  }

  // ---------------------------------------------------------------- the double colon

  predicate NoDouble(s: string) {
    && (forall i | 0 <= i < |s| - 1 :: !(s[i] == ':' && s[i + 1] == ':'))
    && (s != "" ==> s[|s| - 1] != ':')
  }

  lemma {:induction false} NoDoubleFound(s: string)
    requires NoDouble(s)
    ensures DoubleColon(s) == None
  {
    if |s| >= 2 {
      assert s[..2][0] == s[0] && s[..2][1] == s[1];
      NoDoubleFound(s[1..]);
    }
  }

  lemma {:induction false} DoubleFound(s: string, rest: string)
    requires NoDouble(s)
    ensures DoubleColon(s + "::" + rest) == Some(|s|)
  {
    var all := s + "::" + rest;
    if s == "" {
      assert all[..2] == "::";
    } else {
      assert all[..2][0] == s[0] && all[..2][1] == (if |s| > 1 then s[1] else ':');
      assert all[1..] == s[1..] + "::" + rest;
      DoubleFound(s[1..], rest);
    }
  }

  lemma {:induction false} JoinedGroups(gs: seq<string>)
    requires AreGroups(gs)
    ensures NoDouble(Join(gs, ':'))
    ensures gs != [] ==> Join(gs, ':') != "" && Join(gs, ':')[0] != ':'
  {
    if |gs| > 1 {
      var rest := gs[1..];
      JoinedGroups(rest);
      NumeralHasNo(gs[0], 16, ':');
      var tail := Join(rest, ':');
      hide Join;
      GlueGroups(gs[0], tail);
    } else if |gs| == 1 {
      NumeralHasNo(gs[0], 16, ':');
    }
  }

  lemma GlueGroups(g: string, tail: string)
    requires g != "" && ':' !in g && tail != "" && tail[0] != ':' && NoDouble(tail)
    ensures NoDouble(g + ":" + tail) && (g + ":" + tail)[0] != ':'
  {
    var s := g + ":" + tail;
    forall i | 0 <= i < |s| - 1 ensures !(s[i] == ':' && s[i + 1] == ':') {
      if i < |g| {
        assert s[i] in g;
      } else if i > |g| {
        assert s[i] == tail[i - |g| - 1] && s[i + 1] == tail[i - |g|];
      }
    }
  }

  lemma {:induction false} FilledKeeps(gs: seq<string>)
    requires AreGroups(gs)
    ensures Filled(gs) == gs
  {
    if gs != [] {
      FilledKeeps(gs[1..]);
      assert gs == [gs[0]] + gs[1..];
    }
  }

  lemma GroupsOfJoin(gs: seq<string>)
    requires AreGroups(gs)
    ensures GroupsIn(Join(gs, ':')) == gs
  {
    if gs == [] {
      assert Filled([""]) == [] + Filled([""][1..]);
    } else {
      GroupsHaveNo(gs, ':');
      SplitOfJoin(gs, ':');
      FilledKeeps(gs);
    }
  }

  lemma PartsOfPrint(t: V6Text)
    requires t.Valid() && t.dotted.None?
    ensures HeadParts(t.Print()) == t.head && TailParts(t.Print()) == t.tail
  {
    hide Join, GroupsIn, DoubleColon, NoDouble, HeadParts, TailParts;
    var head, tail := Join(t.head, ':'), Join(t.tail, ':');
    JoinedGroups(t.head);
    JoinedGroups(t.tail);
    GroupsOfJoin(t.head);
    GroupsOfJoin(t.tail);
    assert t.tail + [] == t.tail && t.head + [] == t.head;
    if t.elided {
      PartsAround(head, tail);
    } else {
      PartsAlone(head);
    }
  }

  lemma PartsAround(head: string, tail: string)
    requires NoDouble(head) && NoDouble(tail)
    ensures HeadParts(head + "::" + tail) == GroupsIn(head) && TailParts(head + "::" + tail) == GroupsIn(tail)
  {
    DoubleFound(head, tail);
    NoDoubleFound(tail);
    hide GroupsIn, DoubleColon, NoDouble;
    var s := head + "::" + tail;
    assert s[..|head|] == head && s[|head| + 2..] == tail;
  }

  lemma PartsAlone(head: string)
    requires NoDouble(head)
    ensures HeadParts(head) == GroupsIn(head) && TailParts(head) == []
  {
    NoDoubleFound(head);
    hide GroupsIn, DoubleColon;
  }

  // ---------------------------------------------------------------- what is decoded

  lemma ReadZeroGroups(n: nat)
    ensures ReadAll(ZeroGroups(n), 16) == ZeroValues(n)
  {
    assert Read("0", 16) == 0 by { assert "0"[..0] == ""; }
  }

  lemma PartsAreGroups(t: V6Text)
    requires t.Valid() && t.dotted.None?
    ensures ReadAll(t.head + ZeroGroups(Missing(t.head, t.tail)) + t.tail, 16) == t.Groups()
  {
    var zeros := ZeroGroups(Missing(t.head, t.tail));
    ReadAllAppend(t.head + zeros, t.tail, 16);
    ReadAllAppend(t.head, zeros, 16);
    ReadZeroGroups(Missing(t.head, t.tail));
    hide ReadAll;
    assert Missing(t.head, t.tail) == 8 - t.Written();
  }

  /** Every text form of an address decodes to the fold of the groups it stands for. */
  lemma DecodesGroups(t: V6Text)
    requires t.Valid()
    ensures Ipv6Number(t.Print()) == Fold(65536, t.Groups())
  {
    NormalizedIsUndotted(t);
    UndottedKeepsGroups(t);
    var u := Undotted(t);
    assert u.dotted.None?;
    PartsOfPrint(u);
    PartsAreGroups(u);
    hide Normalized, Undotted, HeadParts, TailParts, ReadAll, Fold, V6Text.Print, V6Text.Groups, V6Text.Valid;
  }

  lemma GroupsBound(t: V6Text)
    requires t.Valid()
    ensures forall i | 0 <= i < 8 :: t.Groups()[i] < 65536
  {
    UndottedKeepsGroups(t);
    var u := Undotted(t);
    Pow16();
    forall g | g in u.head || g in u.tail ensures Read(g, 16) < 65536 {
      ReadBound(g, 16);
      assert Pow(16, 0) == 1 && Pow(16, 1) == 16 && Pow(16, 2) == 256 && Pow(16, 3) == 4096;
    }
  }

  /** The value is the sum of the groups, each times its power of 65536, and fits in 128 bits. */
  lemma DecodesIpv6(t: V6Text)
    requires t.Valid()
    ensures Ipv6Number(t.Print()) == Positional(65536, t.Groups())
    ensures Ipv6Number(t.Print()) < Pow(65536, 8)
  {
    DecodesGroups(t);
    FoldIsPositional(65536, t.Groups());
    GroupsBound(t);
    FoldBound(65536, t.Groups());
  }

  /** `ipv6ToBigInt`, which reassigns its locals. */
  method Ipv6ToNumber(ip: string) returns (value: nat)
    ensures value == Ipv6Number(ip)
    ensures forall t: V6Text | t.Valid() && t.Print() == ip :: value == Positional(65536, t.Groups())
  {
    hide Join, Split, Fold, Read, Numeral, DoubleColon, DottedStart, GroupsIn, Filled, Positional;
    var normalized := ip;
    var start := DottedStart(normalized);
    if start.Some? {
      var quad := normalized[start.value..];
      var hex := PadStart(Numeral(Ipv4ToNumber(quad), 16), 8);
      normalized := normalized[..|normalized| - |quad|] + hex[..4] + ":" + hex[4..];
    }
    var headParts, tailParts;
    var double := DoubleColon(normalized);
    if double.Some? {
      headParts := GroupsIn(normalized[..double.value]);
      tailParts := GroupsIn(UpToDouble(normalized[double.value + 2..]));
    } else {
      headParts := GroupsIn(normalized);
      tailParts := [];
    }
    var missing := if |headParts| + |tailParts| < 8 then 8 - |headParts| - |tailParts| else 0;
    var allParts := headParts + ZeroGroups(missing) + tailParts;
    value := Fold(65536, ReadAll(allParts, 16));
    assert value == Ipv6Number(ip);
    AllFormsDecode(ip);
  }

  lemma AllFormsDecode(ip: string)
    ensures forall t: V6Text | t.Valid() && t.Print() == ip :: Ipv6Number(ip) == Positional(65536, t.Groups())
  {
    forall t: V6Text | t.Valid() && t.Print() == ip ensures Ipv6Number(ip) == Positional(65536, t.Groups()) {
      DecodesIpv6(t);
    }
  }
}
