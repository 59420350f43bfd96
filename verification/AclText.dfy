/** AccessControlList::toString and fromString. A C string is a sequence of characters read
    up to its first NUL; the cursor is the rest of it. */
module AclText {
  import opened ChunkTypes
  import opened Acls

  const LONG_MAX: int := 0x7FFF_FFFF_FFFF_FFFF

  // ---------------------------------------------------------------- printing

  function Digit(n: nat): char
    requires n <= 9
  {
    "0123456789"[n]
  }

  function Decimal(n: nat): (r: string)
    ensures r != []
  {
    if n < 10 then [Digit(n)] else Decimal(n / 10) + [Digit(n % 10)]
  }

  /** accessMaskToChar. */
  function MaskChar(rights: nat): char { if rights > 7 then '?' else Digit(rights) }

  function EntryText(e: Entry): string {
    (if e.kind == NAMED_USER then "/u:" else "/g:") + Decimal(e.id) + ":" + [MaskChar(e.rights)]
  }

  function ListText(list: seq<Entry>): string {
    if list == [] then "" else EntryText(list[0]) + ListText(list[1..])
  }

  function MaskText(a: Acl): string { if a.mask != MASK_UNSET then "/m::" + [MaskChar(a.mask)] else "" }

  /** toString. */
  method ToString(a: Acl) returns (text: string)
    requires forall e <- a.list :: e.kind <= NAMED_GROUP
    ensures text == Text(a)
  {
    hide Decimal, MaskChar;
    text := "A" + [MaskChar(a.owner)] + [MaskChar(a.group)] + [MaskChar(a.other)];
    ghost var head := text;
    for k := 0 to |a.list|
      invariant head + ListText(a.list) == text + ListText(a.list[k..])
    {
      var e := a.list[k];
      assert e in a.list && a.list[k..][0] == e && a.list[k..][1..] == a.list[k + 1..];
      ghost var was, rest := text, ListText(a.list[k + 1..]);
      if e.kind == NAMED_USER { text := text + ("/u:" + Decimal(e.id) + ":" + [MaskChar(e.rights)]); }
      if e.kind == NAMED_GROUP { text := text + ("/g:" + Decimal(e.id) + ":" + [MaskChar(e.rights)]); }
      hide EntryText;
      assert was + (EntryText(e) + rest) == was + EntryText(e) + rest;
    }
    assert text + [] == text;
    if a.mask != MASK_UNSET { text := text + ("/m::" + [MaskChar(a.mask)]); }
  }

  function Text(a: Acl): string {
    "A" + [MaskChar(a.owner)] + [MaskChar(a.group)] + [MaskChar(a.other)] + ListText(a.list) + MaskText(a)
  }

  // ---------------------------------------------------------------- parsing

  /** The character at the cursor. */
  function Peek(s: string): char { if s == [] then '\0' else s[0] }

  predicate IsDigit(c: char) { '0' <= c <= '9' }
  predicate IsSpace(c: char) { c == ' ' || '\t' <= c <= '\r' }

  function SkipSpace(s: string): nat { if s != [] && IsSpace(s[0]) then 1 + SkipSpace(s[1..]) else 0 }
  function Digits(s: string): nat { if s != [] && IsDigit(s[0]) then 1 + Digits(s[1..]) else 0 }

  function Value(s: string): nat {
    if s == [] then 0 else 10 * Value(s[..|s| - 1]) + (s[|s| - 1] as int - '0' as int) % 10
  }

  lemma {:induction false} SkipBound(s: string)
    ensures SkipSpace(s) <= |s|
  {
    if s != [] && IsSpace(s[0]) { SkipBound(s[1..]); }
  }

  lemma {:induction false} DigitsBound(s: string)
    ensures Digits(s) <= |s|
  {
    if s != [] && IsDigit(s[0]) { DigitsBound(s[1..]); }
  }

  /** strtol in base ten: the number, clamped to a long, and the characters used; none if
      there is no digit. */
  function Strtol(s: string): (r: (int, nat))
    ensures r.1 <= |s|
  {
    SkipBound(s);
    var spaces := SkipSpace(s);
    var t := s[spaces..];
    var sign := if t != [] && (t[0] == '-' || t[0] == '+') then 1 else 0;
    DigitsBound(t[sign..]);
    var n := Digits(t[sign..]);
    if n == 0 then (0, 0)
    else
      var v: int := Value(t[sign..sign + n]);
      var clamped := if t[0] == '-' then (if v > LONG_MAX + 1 then -LONG_MAX - 1 else -v) else (if v > LONG_MAX then LONG_MAX else v);
      (clamped, spaces + sign + n)
  }

  function KindOf(c: char): nat {
    if c == 'u' then NAMED_USER else if c == 'g' then NAMED_GROUP else if c == 'm' then MASK else INVALID
  }

  /** accessMaskFromChar. */
  function MaskOf(c: char): Option<nat> { if '0' <= c <= '7' then Some(c as nat - '0' as nat) else None }

  /** The part "/x:" of an entry: its kind and the rest of the text. */
  function KindPart(s: string): (r: Option<(nat, string)>)
    ensures r.Some? ==> |r.value.1| < |s|
  {
    if Peek(s) != '/' then None
    else
      var s1 := s[1..];
      var kind := if Peek(s1) != '\0' then KindOf(s1[0]) else INVALID;
      var s2 := if Peek(s1) != '\0' then s1[1..] else s1;
      if Peek(s2) != ':' then None else Some((kind, s2[1..]))
  }

  /** The id, if any. */
  function IdPart(s: string): (r: Option<(nat, string)>)
    ensures r.Some? ==> |r.value.1| <= |s|
  {
    if Peek(s) == ':' then Some((UNDEFINED_ID, s))
    else
      var (n, used) := Strtol(s);
      if used == 0 then None else Some((n % 0x1_0000_0000, s[used..]))
  }

  /** The part ":n" with the rights. */
  function RightsPart(s: string): (r: Option<(nat, string)>)
    ensures r.Some? ==> |r.value.1| < |s|
  {
    if Peek(s) != ':' then None
    else
      var mask := MaskOf(Peek(s[1..]));
      if mask.None? then None else Some((mask.value, s[1..][1..]))
  }

  /** One round of the parsing loop: the new ACL and the rest of the text. */
  function ParseEntry(s: string, a: Acl, capacity: nat): (r: Option<(Acl, string)>)
    ensures r.Some? ==> |r.value.1| < |s|
  {
    var kind := KindPart(s);
    if kind.None? then None
    else
      var id := IdPart(kind.value.1);
      if id.None? then None
      else
        var mask := RightsPart(id.value.1);
        if mask.None? || kind.value.0 == INVALID || GetEntry(a, kind.value.0, id.value.0).kind != INVALID then None
        else if id.value.0 == UNDEFINED_ID && kind.value.0 <= NAMED_GROUP then None
        else Some((SetEntry(a, kind.value.0, id.value.0, mask.value.0, capacity), mask.value.1))
  }

  function ParseEntries(s: string, a: Acl, capacity: nat): Option<Acl>
    decreases |s|
  {
    if Peek(s) == '\0' then Some(a)
    else
      var r := ParseEntry(s, a, capacity);
      if r.None? then None else ParseEntries(r.value.1, r.value.0, capacity)
  }

  function Parse(s: string, capacity: nat): Option<Acl> {
    if |s| < 4 || s[0] != 'A' then None
    else
      var o, g, t := MaskOf(s[1]), MaskOf(s[2]), MaskOf(s[3]);
      if o.None? || g.None? || t.None? then None
      else ParseEntries(s[4..], Acl([], o.value, g.value, t.value, MASK_UNSET), capacity)
  }

  /** fromString. */
  method FromString(s: string, capacity: nat) returns (r: Option<Acl>)
    ensures r == Parse(s, capacity)
  {
    if |s| < 4 { return None; }
    if s[0] != 'A' { return None; }
    var a := Empty();
    var o := MaskOf(s[1]);
    if o.None? { return None; }
    a := SetEntry(a, USER, 0, o.value, capacity);
    var g := MaskOf(s[2]);
    if g.None? { return None; }
    a := SetEntry(a, GROUP, 0, g.value, capacity);
    var t := MaskOf(s[3]);
    if t.None? { return None; }
    a := SetEntry(a, OTHER, 0, t.value, capacity);
    var rest := s[4..];
    while Peek(rest) != '\0'
      invariant ParseEntries(rest, a, capacity) == Parse(s, capacity)
      decreases |rest|
    {
      var entry := ParseEntry(rest, a, capacity);
      if entry.None? { return None; }
      a, rest := entry.value.0, entry.value.1;
    }
    r := Some(a);
  }

  // ---------------------------------------------------------------- the round trip

  lemma {:induction false} DecimalDigits(n: nat)
    ensures forall c <- Decimal(n) :: IsDigit(c)
    ensures Value(Decimal(n)) == n
  {
    if n >= 10 {
      DecimalDigits(n / 10);
      var s := Decimal(n);
      assert s[..|s| - 1] == Decimal(n / 10) && s[|s| - 1] == Digit(n % 10);
    }
  }

  lemma {:induction false} DigitsOf(d: string, rest: string)
    requires (forall c <- d :: IsDigit(c)) && !IsDigit(Peek(rest))
    ensures Digits(d + rest) == |d|
  {
    if d == [] {
      assert d + rest == rest;
    } else {
      assert d[0] in d && (d + rest)[1..] == d[1..] + rest;
      DigitsOf(d[1..], rest);
    }
  }

  /** strtol reads back a printed id. */
  lemma StrtolDecimal(n: nat, rest: string)
    requires n <= UNDEFINED_ID && Peek(rest) == ':'
    ensures Strtol(Decimal(n) + rest) == (n, |Decimal(n)|) && Peek(Decimal(n) + rest) != ':'
  {
    var d := Decimal(n);
    var s := d + rest;
    DecimalDigits(n);
    assert d[0] in d && s[0] == d[0];
    DigitsOf(d, rest);
    assert s[0..] == s && s[..|d|] == d;
  }

  lemma MaskBack(rights: nat)
    requires rights <= 7
    ensures MaskOf(MaskChar(rights)) == Some(rights)
  {}

  /** A list grows at its end when the entries come in order. */
  lemma SetLast(a: Acl, e: Entry, capacity: nat)
    requires Sorted(a.list + [e]) && e.kind <= NAMED_GROUP && |a.list| < capacity
    ensures GetEntry(a, e.kind, e.id).kind == INVALID
    ensures SetEntry(a, e.kind, e.id, e.rights, capacity) == a.(list := a.list + [e])
  {
    var list := a.list + [e];
    assert forall k :: 0 <= k < |a.list| ==> list[k] == a.list[k] && list[k].Before(list[|a.list|].kind, list[|a.list|].id);
    AllBefore(a.list, e.kind, e.id);
    assert a.list[..|a.list|] + [e] + a.list[|a.list|..] == a.list + [e];
  }

  lemma {:induction false} AllBefore(list: seq<Entry>, kind: nat, id: nat)
    requires forall k :: 0 <= k < |list| ==> list[k].Before(kind, id)
    ensures LowerBound(list, kind, id) == |list|
  {
    if list != [] { AllBefore(list[1..], kind, id); }
  }

  lemma KindBack(c: char, rest: string)
    requires c != '\0'
    ensures KindPart("/" + [c] + ":" + rest) == Some((KindOf(c), rest))
  {
    var s := "/" + [c] + ":" + rest;
    assert s[1..] == [c] + ":" + rest && s[1..][1..] == ":" + rest && s[1..][1..][1..] == rest;
  }

  lemma IdBack(n: nat, rest: string)
    requires n <= UNDEFINED_ID && Peek(rest) == ':'
    ensures IdPart(Decimal(n) + rest) == Some((n, rest))
  {
    hide Strtol, Decimal;
    StrtolDecimal(n, rest);
    DropFirst(Decimal(n), rest);
  }

  lemma DropFirst(d: string, rest: string)
    ensures (d + rest)[|d|..] == rest
  {}

  lemma RightsBack(rights: nat, rest: string)
    requires rights <= 7
    ensures RightsPart(":" + [MaskChar(rights)] + rest) == Some((rights, rest))
  {
    var s := ":" + [MaskChar(rights)] + rest;
    assert s[1..] == [MaskChar(rights)] + rest && s[1..][1..] == rest;
    MaskBack(rights);
  }

  /** Reading back one named entry: it fails exactly for the id that stands for none. */
  lemma EntryBack(a: Acl, e: Entry, rest: string, capacity: nat)
    requires e.Valid() && Sorted(a.list + [e]) && |a.list| < capacity
    ensures ParseEntry(EntryText(e) + rest, a, capacity) ==
            if e.id == UNDEFINED_ID then None else Some((a.(list := a.list + [e]), rest))
  {
    hide KindPart, IdPart, RightsPart, Decimal, MaskChar, SetEntry, GetEntry;
    var c := if e.kind == NAMED_USER then 'u' else 'g';
    var tail := ":" + [MaskChar(e.rights)] + rest;
    EntryParts(e, rest);
    KindBack(c, Decimal(e.id) + tail);
    IdBack(e.id, tail);
    RightsBack(e.rights, rest);
    SetLast(a, e, capacity);
  }

  lemma EntryParts(e: Entry, rest: string)
    ensures EntryText(e) + rest == "/" + [if e.kind == NAMED_USER then 'u' else 'g'] + ":" + (Decimal(e.id) + (":" + [MaskChar(e.rights)] + rest))
  {
    hide Decimal, MaskChar;
    var d, m := Decimal(e.id), [MaskChar(e.rights)];
    assert "/u:" == "/" + ['u'] + ":" && "/g:" == "/" + ['g'] + ":";
    var k := if e.kind == NAMED_USER then "/u:" else "/g:";
    assert k + d + ":" + m + rest == k + (d + (":" + m + rest));
  }

  lemma MaskTextBack(a: Acl, capacity: nat)
    requires a.mask == MASK_UNSET
    ensures forall mask :: mask <= 7 ==> ParseEntries("/m::" + [MaskChar(mask)], a, capacity) == Some(a.(mask := mask))
  {
    forall mask: nat | mask <= 7 ensures ParseEntries("/m::" + [MaskChar(mask)], a, capacity) == Some(a.(mask := mask)) {
      var rest := ":" + [MaskChar(mask)];
      assert "/m::" + [MaskChar(mask)] == "/" + ['m'] + ":" + rest && rest == ":" + [MaskChar(mask)] + [];
      KindBack('m', rest);
      RightsBack(mask, []);
      hide KindPart, RightsPart, MaskChar;
      assert IdPart(rest) == Some((UNDEFINED_ID, rest));
      assert ParseEntry("/m::" + [MaskChar(mask)], a, capacity) == Some((a.(mask := mask), []));
    }
  }

  predicate NamedIdsDefined(list: seq<Entry>) { forall e <- list :: e.id != UNDEFINED_ID }

  /** Reading back the rest of a list behind its first k entries. */
  lemma {:induction false} ListBack(a: Acl, k: nat, capacity: nat)
    requires WellFormed(a) && k <= |a.list| <= capacity
    ensures var start := a.(list := a.list[..k], mask := MASK_UNSET);
            ParseEntries(ListText(a.list[k..]) + MaskText(a), start, capacity) ==
            if NamedIdsDefined(a.list[k..]) then Some(a) else None
    decreases |a.list| - k
  {
    var start, rest := a.(list := a.list[..k], mask := MASK_UNSET), a.list[k..];
    if rest == [] {
      assert a.list[..k] == a.list && "" + MaskText(a) == MaskText(a);
      if a.mask != MASK_UNSET {
        MaskTextBack(start, capacity);
        assert a == start.(mask := a.mask);
      }
    } else {
      var e := a.list[k];
      var more := ListText(a.list[k + 1..]) + MaskText(a);
      assert rest[0] == e && rest[1..] == a.list[k + 1..] && e in a.list;
      assert EntryText(e) + ListText(a.list[k + 1..]) + MaskText(a) == EntryText(e) + more;
      assert a.list[..k] + [e] == a.list[..k + 1];
      EntryBack(start, e, more, capacity);
      ListBack(a, k + 1, capacity);
      FirstDefined(rest);
      EntryStarts(e, more);
      hide ParseEntry, EntryText, MaskText, WellFormed, NamedIdsDefined;
    }
  }

  lemma FirstDefined(list: seq<Entry>)
    requires list != []
    ensures NamedIdsDefined(list) <==> list[0].id != UNDEFINED_ID && NamedIdsDefined(list[1..])
  {
    assert forall e :: e in list <==> e == list[0] || e in list[1..];
  }

  lemma EntryStarts(e: Entry, rest: string)
    ensures Peek(EntryText(e) + rest) == '/'
  {}

  /** Parsing the printed text of a well-formed ACL returns an equal ACL exactly when no
      named entry has the id 0xFFFFFFFF. */
  lemma TextRoundTrip(a: Acl, capacity: nat)
    requires WellFormed(a) && |a.list| <= capacity
    ensures Parse(Text(a), capacity) == if NamedIdsDefined(a.list) then Some(a) else None
  {
    var text, tail := Text(a), ListText(a.list) + MaskText(a);
    var head := "A" + [MaskChar(a.owner)] + [MaskChar(a.group)] + [MaskChar(a.other)];
    assert text == head + tail && |head| == 4 && text[4..] == tail;
    MaskBack(a.owner);
    MaskBack(a.group);
    MaskBack(a.other);
    ListBack(a, 0, capacity);
    assert a.list[0..] == a.list && a.list[..0] == [];
  }

  /** One named user with the id that stands for none: the text of this ACL does not parse. */
  lemma UndefinedIdLost(rights: nat, capacity: nat)
    requires rights <= 7 && 0 < capacity
    ensures var a := Acl([Entry(NAMED_USER, UNDEFINED_ID, rights)], 7, 0, 0, 7);
            WellFormed(a) && Parse(Text(a), capacity) == None
  {
    var a := Acl([Entry(NAMED_USER, UNDEFINED_ID, rights)], 7, 0, 0, 7);
    assert a.list[0] in a.list;
    TextRoundTrip(a, capacity);
  }

  // ---------------------------------------------------------------- whatever parses

  /** What a parser can have built: well-formed, within capacity and printable. */
  ghost predicate Printable(a: Acl, capacity: nat) { WellFormed(a) && |a.list| <= capacity && NamedIdsDefined(a.list) }

  lemma RightsBounded(s: string)
    ensures RightsPart(s).Some? ==> RightsPart(s).value.0 <= 7
  {}

  lemma IdBounded(s: string)
    ensures IdPart(s).Some? ==> IdPart(s).value.0 <= UNDEFINED_ID
  {}

  lemma SetPrintable(a: Acl, kind: nat, id: nat, rights: nat, capacity: nat)
    requires Printable(a, capacity) && id <= UNDEFINED_ID && rights <= 7 && (kind <= NAMED_GROUP ==> id != UNDEFINED_ID)
    ensures Printable(SetEntry(a, kind, id, rights, capacity), capacity)
  {
    if kind <= NAMED_GROUP { SetIsMapUpdate(a, kind, id, rights, capacity, kind, id); }
  }

  lemma EntryPrintable(s: string, a: Acl, capacity: nat)
    requires Printable(a, capacity)
    ensures var r := ParseEntry(s, a, capacity); r.Some? ==> Printable(r.value.0, capacity)
  {
    var kind := KindPart(s);
    if kind.Some? {
      var id := IdPart(kind.value.1);
      IdBounded(kind.value.1);
      if id.Some? {
        var mask := RightsPart(id.value.1);
        RightsBounded(id.value.1);
        hide Printable, KindPart, IdPart, RightsPart, SetEntry, GetEntry;
        if mask.Some? && !(id.value.0 == UNDEFINED_ID && kind.value.0 <= NAMED_GROUP) {
          SetPrintable(a, kind.value.0, id.value.0, mask.value.0, capacity);
        }
      }
    }
  }

  lemma {:induction false} EntriesPrintable(s: string, a: Acl, capacity: nat)
    requires Printable(a, capacity)
    ensures var r := ParseEntries(s, a, capacity); r.Some? ==> Printable(r.value, capacity)
    decreases |s|
  {
    hide Printable;
    if Peek(s) != '\0' {
      EntryPrintable(s, a, capacity);
      var r := ParseEntry(s, a, capacity);
      hide ParseEntry;
      if r.Some? { EntriesPrintable(r.value.1, r.value.0, capacity); }
    }
  }

  /** Whatever text parses, it parses to a well-formed ACL that fits; its own text is a
      canonical form of it, which parses to the same ACL. */
  lemma ParsedIsCanonical(s: string, capacity: nat)
    ensures var r := Parse(s, capacity);
            r.Some? ==> Printable(r.value, capacity) && Parse(Text(r.value), capacity) == r
  {
    var r := Parse(s, capacity);
    if r.Some? {
      var start := Acl([], MaskOf(s[1]).value, MaskOf(s[2]).value, MaskOf(s[3]).value, MASK_UNSET);
      EntriesPrintable(s[4..], start, capacity);
      hide Parse, Text, ParseEntries;
      TextRoundTrip(r.value, capacity);
    }
  }

  // ---------------------------------------------------------------- the characters

  function SampleAcl(): Acl { Acl([Entry(NAMED_USER, 12345, 5), Entry(NAMED_GROUP, 12345, 5)], 7, 5, 5, 4) }

  lemma SampleNumber()
    ensures Decimal(12345) == "12345"
  {
    assert Decimal(1) == "1";
    assert Decimal(12) == "12";
    assert Decimal(123) == "123";
    assert Decimal(1234) == "1234";
  }

  lemma SampleEntries()
    ensures ListText(SampleAcl().list) == "/u:12345:5" + "/g:12345:5"
  {
    hide Decimal;
    var list := SampleAcl().list;
    SampleNumber();
    assert "/u:" + "12345" + ":" + "5" == "/u:12345:5" && "/g:" + "12345" + ":" + "5" == "/g:12345:5";
    assert EntryText(list[0]) == "/u:12345:5" && EntryText(list[1]) == "/g:12345:5";
    hide EntryText;
    assert list[1..] == [list[1]] && [list[1]][1..] == [];
    assert EntryText(list[1]) + "" == EntryText(list[1]);
  }

  /** An ACL of the unit tests has the text given there, both ways. */
  lemma SampleText(capacity: nat)
    requires capacity >= 2
    ensures Text(SampleAcl()) == "A755" + "/u:12345:5" + "/g:12345:5" + "/m::4"
    ensures Parse("A755" + "/u:12345:5" + "/g:12345:5" + "/m::4", capacity) == Some(SampleAcl())
  {
    hide Decimal, Parse, ListText;
    SampleEntries();
    assert "A" + "7" + "5" + "5" == "A755" && "/m::" + "4" == "/m::4";
    assert "A755" + ("/u:12345:5" + "/g:12345:5") + "/m::4" == "A755" + "/u:12345:5" + "/g:12345:5" + "/m::4";
    TextRoundTrip(SampleAcl(), capacity);
  }
}
